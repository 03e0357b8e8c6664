/** The loot pool and XP pool that `handleRemoveAndLoot` feeds and
    `handleRestoreDeletedCharacter` drains (App.js:754-779, App.js:819-852).

    A loot entry is identified by its key `(name, unit, isCustom)`. Its quantity is
    modelled as JavaScript sees it: `None` is a falsy value (absent, `0`, `""`), and
    `Some(n)` is a truthy value whose `parseInt(..) || 0` is `n`. After a merge the
    source stores the sum as a string, which is always truthy, hence `Some`. */
module Loot {
  import opened Common

  datatype LootKey = LootKey(name: string, unit: Option<string>, isCustom: bool)
  datatype LootItem = LootItem(key: LootKey, quantity: Option<int>)

  /** `parseInt(item.quantity) || 0`. */
  function Qty(e: LootItem): int {
    if e.quantity.Some? then e.quantity.value else 0
  }

  /** `findIndex` of the first pool entry with the given key. */
  function KeyIndex(pool: seq<LootItem>, k: LootKey): (r: int)
    ensures -1 <= r < |pool|
    ensures r >= 0 ==> pool[r].key == k && forall j :: 0 <= j < r ==> pool[j].key != k
    ensures r == -1 ==> forall j :: 0 <= j < |pool| ==> pool[j].key != k
  {
    FindFirst(pool, (e: LootItem) => e.key == k)
  }

  /** One step of the `forEach` at App.js:761-777: add a truthy quantity to the first
      entry with the same key, otherwise append a copy of the item. */
  function MergeOne(pool: seq<LootItem>, it: LootItem): seq<LootItem> {
    var i := KeyIndex(pool, it.key);
    if i > -1 && it.quantity.Some? then
      pool[i := pool[i].(quantity := Some(Qty(pool[i]) + it.quantity.value))]
    else
      pool + [it]
  }

  /** One step of the `forEach` at App.js:826-848: subtract a truthy quantity from
      the first entry with that key and splice it out when it reaches 0 or less;
      with a falsy quantity (or no entry), splice out the first entry with the key
      if there is one. The second `findIndex` of the source runs on the same,
      unchanged array, so it is the same index. */
  function UnmergeOne(pool: seq<LootItem>, it: LootItem): seq<LootItem> {
    var i := KeyIndex(pool, it.key);
    if i > -1 && it.quantity.Some? then
      var nq := Qty(pool[i]) - it.quantity.value;
      if nq <= 0 then pool[..i] + pool[i + 1..]
      else pool[i := pool[i].(quantity := Some(nq))]
    else if i > -1 then pool[..i] + pool[i + 1..]
    else pool
  }

  /** The loot pool after merging `items` in order. */
  function Merged(pool: seq<LootItem>, items: seq<LootItem>): seq<LootItem>
    decreases |items|
  {
    if |items| == 0 then pool
    else MergeOne(Merged(pool, items[..|items| - 1]), items[|items| - 1])
  }

  /** The loot pool after un-merging `items` in order. */
  function Unmerged(pool: seq<LootItem>, items: seq<LootItem>): seq<LootItem>
    decreases |items|
  {
    if |items| == 0 then pool
    else UnmergeOne(Unmerged(pool, items[..|items| - 1]), items[|items| - 1])
  }

  /** The `forEach` of App.js:758-779 over a copy of the loot pool. */
  method MergeItems(pool: seq<LootItem>, items: seq<LootItem>) returns (updated: seq<LootItem>)
    ensures updated == Merged(pool, items)
  {
    updated := pool;
    var k := 0;
    while k < |items|
      invariant 0 <= k <= |items|
      invariant updated == Merged(pool, items[..k])
    {
      var item := items[k];
      var i := KeyIndex(updated, item.key);
      if i > -1 && item.quantity.Some? {
        updated := updated[i := updated[i].(quantity := Some(Qty(updated[i]) + item.quantity.value))];
      } else {
        updated := updated + [item];
      }
      assert items[..k + 1][..k] == items[..k];
      k := k + 1;
    }
    assert items[..k] == items;
  }

  /** The `forEach` of App.js:824-849 over a copy of the loot pool. */
  method UnmergeItems(pool: seq<LootItem>, items: seq<LootItem>) returns (updated: seq<LootItem>)
    ensures updated == Unmerged(pool, items)
  {
    updated := pool;
    var k := 0;
    while k < |items|
      invariant 0 <= k <= |items|
      invariant updated == Unmerged(pool, items[..k])
    {
      updated := UnmergeItem(updated, items[k]);
      assert items[..k + 1][..k] == items[..k];
      k := k + 1;
    }
    assert items[..k] == items;
  }

  /** The body of that `forEach` for one returned `item`. */
  method UnmergeItem(pool: seq<LootItem>, item: LootItem) returns (updated: seq<LootItem>)
    ensures updated == UnmergeOne(pool, item)
  {
    updated := pool;
    var i := KeyIndex(updated, item.key);
    if i > -1 && item.quantity.Some? {
      var newQty := Qty(updated[i]) - item.quantity.value;
      if newQty <= 0 {
        updated := updated[..i] + updated[i + 1..];
      } else {
        updated := updated[i := updated[i].(quantity := Some(newQty))];
      }
    } else {
      var single := KeyIndex(updated, item.key);
      if single > -1 {
        updated := updated[..single] + updated[single + 1..];
      }
    }
  }

  // ---------------------------------------------------------------------------
  // The ledger: XP pool and loot pool together.

  datatype Ledger = Ledger(xpPool: int, loot: seq<LootItem>)

  /** What removing-and-looting a combatant with this `xp` and these `items` does to
      the ledger (App.js:754-779). */
  function Looted(l: Ledger, xp: Option<int>, items: seq<LootItem>): (r: Ledger)
    ensures xp.Some? ==> r.xpPool == l.xpPool + xp.value
    ensures xp.None? ==> r.xpPool == l.xpPool
  {
    Ledger(if xp.Some? then l.xpPool + xp.value else l.xpPool,
           if |items| > 0 then Merged(l.loot, items) else l.loot)
  }

  /** What restoring a looted snapshot does to the ledger (App.js:819-852): the XP
      subtraction is floored at 0. */
  function Unlooted(l: Ledger, xp: Option<int>, items: seq<LootItem>): (r: Ledger)
    ensures r.xpPool >= 0 || (xp.None? && r.xpPool == l.xpPool)
  {
    Ledger(if xp.Some? then Max(0, l.xpPool - xp.value) else l.xpPool,
           if |items| > 0 then Unmerged(l.loot, items) else l.loot)
  }

  /** The two pool updates of App.js:754-779: the XP pool grows by `xp` when
      there is one, and a non-empty item list is merged into the loot pool. */
  method LootLedger(xpPool: int, loot: seq<LootItem>, xp: Option<int>, items: seq<LootItem>)
    returns (xpPool': int, loot': seq<LootItem>)
    ensures Ledger(xpPool', loot') == Looted(Ledger(xpPool, loot), xp, items)
  {
    xpPool', loot' := xpPool, loot;
    if xp.Some? {
      xpPool' := xpPool + xp.value;
    }
    if |items| > 0 {
      loot' := MergeItems(loot, items);
    }
  }

  /** The two pool updates of App.js:819-852: the XP pool shrinks by `xp`, not
      below 0, and a non-empty item list is taken back out of the loot pool. */
  method UnlootLedger(xpPool: int, loot: seq<LootItem>, xp: Option<int>, items: seq<LootItem>)
    returns (xpPool': int, loot': seq<LootItem>)
    ensures Ledger(xpPool', loot') == Unlooted(Ledger(xpPool, loot), xp, items)
  {
    xpPool', loot' := xpPool, loot;
    if xp.Some? {
      xpPool' := Max(0, xpPool - xp.value);
    }
    if |items| > 0 {
      loot' := UnmergeItems(loot, items);
    }
  }

  // ---------------------------------------------------------------------------
  // Round trip: restore undoes remove-and-loot.

  predicate Positive(e: LootItem) {
    e.quantity.Some? && e.quantity.value > 0
  }

  predicate AllPositive(s: seq<LootItem>) {
    forall i :: 0 <= i < |s| ==> Positive(s[i])
  }

  predicate DistinctKeys(s: seq<LootItem>) {
    forall i, j :: 0 <= i < j < |s| ==> s[i].key != s[j].key
  }

  /** The shape a well-kept pool has: positive quantities, one entry per key. */
  predicate WellKept(pool: seq<LootItem>) {
    AllPositive(pool) && DistinctKeys(pool)
  }

  /** Total quantity that `ys` carries for key `k`. */
  function SumKey(ys: seq<LootItem>, k: LootKey): int
    decreases |ys|
  {
    if |ys| == 0 then 0
    else SumKey(ys[..|ys| - 1], k) + (if ys[|ys| - 1].key == k then Qty(ys[|ys| - 1]) else 0)
  }

  lemma {:induction false} SumKeyNonNegative(ys: seq<LootItem>, k: LootKey)
    requires AllPositive(ys)
    ensures SumKey(ys, k) >= 0
    ensures SumKey(ys, k) == 0 <==> forall i :: 0 <= i < |ys| ==> ys[i].key != k
    decreases |ys|
  {
    if |ys| > 0 {
      var init := ys[..|ys| - 1];
      assert AllPositive(init) by {
        forall i | 0 <= i < |init| ensures Positive(init[i]) { assert init[i] == ys[i]; }
      }
      SumKeyNonNegative(init, k);
      assert forall i :: 0 <= i < |init| ==> init[i] == ys[i];
    }
  }

  lemma {:induction false} SumKeyAppend(a: seq<LootItem>, b: seq<LootItem>, k: LootKey)
    ensures SumKey(a + b, k) == SumKey(a, k) + SumKey(b, k)
    decreases |b|
  {
    if |b| == 0 {
      assert a + b == a;
    } else {
      var b' := b[..|b| - 1];
      assert (a + b)[..|a + b| - 1] == a + b';
      SumKeyAppend(a, b', k);
    }
  }

  lemma SumKeyCons(z: LootItem, ys: seq<LootItem>, k: LootKey)
    ensures SumKey([z] + ys, k) == (if z.key == k then Qty(z) else 0) + SumKey(ys, k)
  {
    SumKeyAppend([z], ys, k);
    assert [z][..0] == [];
  }

  /** Overwriting an entry with one of the same key moves no key's first index. */
  lemma SameKeyUpdate(pool: seq<LootItem>, i: int, e: LootItem)
    requires 0 <= i < |pool| && e.key == pool[i].key
    ensures forall k :: KeyIndex(pool[i := e], k) == KeyIndex(pool, k)
  {
    var m := pool[i := e];
    assert forall j :: 0 <= j < |pool| ==> m[j].key == pool[j].key;
    forall k ensures KeyIndex(m, k) == KeyIndex(pool, k) {
      var a, b := KeyIndex(pool, k), KeyIndex(m, k);
      if a >= 0 { assert m[a].key == k; }
      if b >= 0 { assert pool[b].key == k; }
    }
  }

  /** The pool obtained from `p` by merging `ys` (or from `p` merged with more items
      by un-merging all but `ys`): the first `|p|` entries are `p`'s entries with
      `ys`'s quantities added, and the entries after them are one per new key that
      `ys` still carries, holding exactly that key's total. */
  ghost predicate Layout(pool: seq<LootItem>, p: seq<LootItem>, ys: seq<LootItem>) {
    Prefix(pool, p, ys) && DistinctKeys(pool) && Suffix(pool, p, ys) && Covers(pool, ys)
  }

  /** The first `|p|` entries are `p`'s, each raised by what `ys` carries for its key. */
  ghost predicate Prefix(pool: seq<LootItem>, p: seq<LootItem>, ys: seq<LootItem>) {
    && |p| <= |pool|
    && forall i :: 0 <= i < |p| ==>
         pool[i] == LootItem(p[i].key, Some(Qty(p[i]) + SumKey(ys, p[i].key)))
  }

  /** Every later entry holds exactly the positive total `ys` carries for its key. */
  ghost predicate Suffix(pool: seq<LootItem>, p: seq<LootItem>, ys: seq<LootItem>) {
    forall i :: |p| <= i < |pool| ==>
      pool[i].quantity == Some(SumKey(ys, pool[i].key)) && SumKey(ys, pool[i].key) > 0
  }

  /** Every key `ys` carries has an entry. */
  ghost predicate Covers(pool: seq<LootItem>, ys: seq<LootItem>) {
    forall k :: SumKey(ys, k) > 0 ==> KeyIndex(pool, k) >= 0
  }

  lemma LayoutStart(p: seq<LootItem>)
    requires WellKept(p)
    ensures Layout(p, p, [])
  {
    forall i | 0 <= i < |p|
      ensures p[i] == LootItem(p[i].key, Some(Qty(p[i]) + SumKey([], p[i].key)))
    {
      assert Positive(p[i]);
    }
  }

  lemma SuffixPositive(pool: seq<LootItem>, p: seq<LootItem>, ys: seq<LootItem>)
    requires Layout(pool, p, ys)
    requires |p| < |pool|
    ensures SumKey(ys, pool[|p|].key) > 0
  {
  }

  lemma LayoutEnd(pool: seq<LootItem>, p: seq<LootItem>)
    requires WellKept(p)
    requires Layout(pool, p, [])
    ensures pool == p
  {
    if |p| < |pool| {
      SuffixPositive(pool, p, []);
      assert false;
    }
    forall i | 0 <= i < |p| ensures pool[i] == p[i] {
      assert Positive(p[i]);
    }
  }

  /** Merging an item whose key the pool already holds. */
  lemma MergeStepFound(pool: seq<LootItem>, p: seq<LootItem>, ys: seq<LootItem>, z: LootItem)
    requires AllPositive(ys) && Positive(z)
    requires Layout(pool, p, ys)
    requires KeyIndex(pool, z.key) >= 0
    ensures Layout(MergeOne(pool, z), p, ys + [z])
  {
    var i := KeyIndex(pool, z.key);
    var e := pool[i].(quantity := Some(Qty(pool[i]) + z.quantity.value));
    assert MergeOne(pool, z) == pool[i := e];
    FoundPrefix(pool, p, ys, z);
    FoundSuffix(pool, p, ys, z);
    FoundCovers(pool, p, ys, z);
  }

  /** Appending `z` adds its quantity to its own key's total and to no other. */
  lemma SumKeySnoc(ys: seq<LootItem>, z: LootItem, k: LootKey)
    ensures SumKey(ys + [z], k) == SumKey(ys, k) + (if z.key == k then Qty(z) else 0)
  {
    assert (ys + [z])[..|ys|] == ys;
  }

  lemma FoundPrefix(pool: seq<LootItem>, p: seq<LootItem>, ys: seq<LootItem>, z: LootItem)
    requires Positive(z) && Layout(pool, p, ys) && KeyIndex(pool, z.key) >= 0
    ensures var i := KeyIndex(pool, z.key);
      Prefix(pool[i := pool[i].(quantity := Some(Qty(pool[i]) + z.quantity.value))], p, ys + [z])
  {
    var i := KeyIndex(pool, z.key);
    var m := pool[i := pool[i].(quantity := Some(Qty(pool[i]) + z.quantity.value))];
    forall a | 0 <= a < |p|
      ensures m[a] == LootItem(p[a].key, Some(Qty(p[a]) + SumKey(ys + [z], p[a].key)))
    {
      SumKeySnoc(ys, z, p[a].key);
      assert pool[a] == LootItem(p[a].key, Some(Qty(p[a]) + SumKey(ys, p[a].key)));
      if a == i {
        assert Qty(pool[a]) == Qty(p[a]) + SumKey(ys, p[a].key);
      } else {
        assert pool[a].key != z.key && m[a] == pool[a];
      }
    }
  }

  lemma FoundSuffix(pool: seq<LootItem>, p: seq<LootItem>, ys: seq<LootItem>, z: LootItem)
    requires Positive(z) && Layout(pool, p, ys) && KeyIndex(pool, z.key) >= 0
    ensures var i := KeyIndex(pool, z.key);
      Suffix(pool[i := pool[i].(quantity := Some(Qty(pool[i]) + z.quantity.value))], p, ys + [z])
  {
    var i := KeyIndex(pool, z.key);
    var m := pool[i := pool[i].(quantity := Some(Qty(pool[i]) + z.quantity.value))];
    forall a | |p| <= a < |m|
      ensures m[a].quantity == Some(SumKey(ys + [z], m[a].key)) && SumKey(ys + [z], m[a].key) > 0
    {
      SumKeySnoc(ys, z, m[a].key);
      if a != i {
        assert pool[a].key != pool[i].key;
      }
    }
  }

  lemma FoundCovers(pool: seq<LootItem>, p: seq<LootItem>, ys: seq<LootItem>, z: LootItem)
    requires Positive(z) && Layout(pool, p, ys) && KeyIndex(pool, z.key) >= 0
    ensures var i := KeyIndex(pool, z.key);
      var m := pool[i := pool[i].(quantity := Some(Qty(pool[i]) + z.quantity.value))];
      DistinctKeys(m) && Covers(m, ys + [z])
  {
    var i := KeyIndex(pool, z.key);
    var e := pool[i].(quantity := Some(Qty(pool[i]) + z.quantity.value));
    SameKeyUpdate(pool, i, e);
    FoundCoversKeys(pool, ys, z, i, e);
  }

  lemma FoundCoversKeys(pool: seq<LootItem>, ys: seq<LootItem>, z: LootItem, i: int, e: LootItem)
    requires 0 <= i < |pool| && e.key == pool[i].key && pool[i].key == z.key
    requires DistinctKeys(pool) && Covers(pool, ys)
    requires forall k :: KeyIndex(pool[i := e], k) == KeyIndex(pool, k)
    ensures DistinctKeys(pool[i := e]) && Covers(pool[i := e], ys + [z])
  {
    var m := pool[i := e];
    assert forall j :: 0 <= j < |pool| ==> m[j].key == pool[j].key;
    forall k | SumKey(ys + [z], k) > 0
      ensures KeyIndex(m, k) >= 0
    {
      SumKeySnoc(ys, z, k);
    }
  }

  lemma MergeStepNew(pool: seq<LootItem>, p: seq<LootItem>, ys: seq<LootItem>, z: LootItem)
    requires AllPositive(ys) && Positive(z)
    requires Layout(pool, p, ys)
    requires KeyIndex(pool, z.key) == -1
    ensures Layout(MergeOne(pool, z), p, ys + [z])
  {
    assert MergeOne(pool, z) == pool + [z];
    NewPrefix(pool, p, ys, z);
    NewSuffix(pool, p, ys, z);
    NewCovers(pool, p, ys, z);
  }

  lemma NewPrefix(pool: seq<LootItem>, p: seq<LootItem>, ys: seq<LootItem>, z: LootItem)
    requires Prefix(pool, p, ys) && KeyIndex(pool, z.key) == -1
    ensures Prefix(pool + [z], p, ys + [z])
  {
    var m := pool + [z];
    forall a | 0 <= a < |p|
      ensures m[a] == LootItem(p[a].key, Some(Qty(p[a]) + SumKey(ys + [z], p[a].key)))
    {
      SumKeySnoc(ys, z, p[a].key);
      assert pool[a].key != z.key;
    }
  }

  lemma NewSuffix(pool: seq<LootItem>, p: seq<LootItem>, ys: seq<LootItem>, z: LootItem)
    requires AllPositive(ys) && Positive(z)
    requires Prefix(pool, p, ys) && Suffix(pool, p, ys) && Covers(pool, ys) && KeyIndex(pool, z.key) == -1
    ensures Suffix(pool + [z], p, ys + [z])
  {
    var m := pool + [z];
    forall a | |p| <= a < |m|
      ensures m[a].quantity == Some(SumKey(ys + [z], m[a].key)) && SumKey(ys + [z], m[a].key) > 0
    {
      SumKeySnoc(ys, z, m[a].key);
      if a < |pool| {
        assert pool[a].key != z.key;
      } else {
        SumKeyNonNegative(ys, z.key);
      }
    }
  }

  lemma NewCovers(pool: seq<LootItem>, p: seq<LootItem>, ys: seq<LootItem>, z: LootItem)
    requires DistinctKeys(pool) && Covers(pool, ys) && KeyIndex(pool, z.key) == -1
    ensures DistinctKeys(pool + [z]) && Covers(pool + [z], ys + [z])
  {
    var m := pool + [z];
    forall k | SumKey(ys + [z], k) > 0 ensures KeyIndex(m, k) >= 0 {
      SumKeySnoc(ys, z, k);
      if k == z.key {
        assert m[|pool|].key == k;
      } else {
        assert m[KeyIndex(pool, k)].key == k;
      }
    }
  }

  lemma MergeStep(pool: seq<LootItem>, p: seq<LootItem>, ys: seq<LootItem>, z: LootItem)
    requires AllPositive(ys) && Positive(z)
    requires Layout(pool, p, ys)
    ensures Layout(MergeOne(pool, z), p, ys + [z])
  {
    if KeyIndex(pool, z.key) >= 0 {
      MergeStepFound(pool, p, ys, z);
    } else {
      MergeStepNew(pool, p, ys, z);
    }
  }

  /** In a pool with one entry per key, every entry other than `z`'s has another
      key, so `z` does not contribute to its total. */
  lemma OtherKeys(pool: seq<LootItem>, z: LootItem, ys: seq<LootItem>)
    requires DistinctKeys(pool) && KeyIndex(pool, z.key) >= 0
    ensures forall a :: 0 <= a < |pool| && a != KeyIndex(pool, z.key) ==>
      pool[a].key != z.key && SumKey(ys, pool[a].key) == SumKey([z] + ys, pool[a].key)
  {
    var i := KeyIndex(pool, z.key);
    forall a | 0 <= a < |pool| && a != i
      ensures pool[a].key != z.key && SumKey(ys, pool[a].key) == SumKey([z] + ys, pool[a].key)
    {
      assert pool[a].key != pool[i].key;
      SumKeyCons(z, ys, pool[a].key);
    }
  }

  /** The pool after un-merging `z` when its entry stays, with the quantity lowered. */
  function Lowered(pool: seq<LootItem>, z: LootItem): seq<LootItem>
    requires KeyIndex(pool, z.key) >= 0 && z.quantity.Some?
  {
    var i := KeyIndex(pool, z.key);
    pool[i := pool[i].(quantity := Some(Qty(pool[i]) - z.quantity.value))]
  }

  lemma KeepPrefix(pool: seq<LootItem>, p: seq<LootItem>, z: LootItem, ys: seq<LootItem>)
    requires Positive(z) && Layout(pool, p, [z] + ys)
    requires KeyIndex(pool, z.key) >= 0
    ensures Prefix(Lowered(pool, z), p, ys)
  {
    var u := Lowered(pool, z);
    OtherKeys(pool, z, ys);
    SumKeyCons(z, ys, z.key);
    assert forall a :: 0 <= a < |p| ==>
      u[a] == LootItem(p[a].key, Some(Qty(p[a]) + SumKey(ys, p[a].key)));
  }

  lemma KeepSuffix(pool: seq<LootItem>, p: seq<LootItem>, z: LootItem, ys: seq<LootItem>)
    requires Positive(z) && Layout(pool, p, [z] + ys)
    requires KeyIndex(pool, z.key) >= 0
    requires Qty(pool[KeyIndex(pool, z.key)]) - z.quantity.value > 0
    ensures Suffix(Lowered(pool, z), p, ys)
  {
    var u := Lowered(pool, z);
    OtherKeys(pool, z, ys);
    SumKeyCons(z, ys, z.key);
    assert forall a :: |p| <= a < |u| ==>
      u[a].quantity == Some(SumKey(ys, u[a].key)) && SumKey(ys, u[a].key) > 0;
  }

  lemma KeepCovers(pool: seq<LootItem>, p: seq<LootItem>, z: LootItem, ys: seq<LootItem>)
    requires AllPositive(ys) && Positive(z) && Layout(pool, p, [z] + ys)
    requires KeyIndex(pool, z.key) >= 0
    ensures DistinctKeys(Lowered(pool, z)) && Covers(Lowered(pool, z), ys)
  {
    var i := KeyIndex(pool, z.key);
    var u := Lowered(pool, z);
    SameKeyUpdate(pool, i, u[i]);
    assert forall a :: 0 <= a < |u| ==> u[a].key == pool[a].key;
    forall k | SumKey(ys, k) > 0 ensures KeyIndex(u, k) >= 0 {
      SumKeyCons(z, ys, k);
    }
  }

  /** Un-merging an item whose entry keeps a positive quantity. */
  lemma UnmergeStepKeep(pool: seq<LootItem>, p: seq<LootItem>, z: LootItem, ys: seq<LootItem>)
    requires AllPositive(ys) && Positive(z)
    requires Layout(pool, p, [z] + ys)
    requires KeyIndex(pool, z.key) >= 0
    requires Qty(pool[KeyIndex(pool, z.key)]) - z.quantity.value > 0
    ensures Layout(UnmergeOne(pool, z), p, ys)
  {
    assert UnmergeOne(pool, z) == Lowered(pool, z);
    KeepPrefix(pool, p, z, ys);
    KeepSuffix(pool, p, z, ys);
    KeepCovers(pool, p, z, ys);
  }

  /** The pool after un-merging `z` when its entry is spliced out. */
  function Spliced(pool: seq<LootItem>, z: LootItem): (u: seq<LootItem>)
    requires KeyIndex(pool, z.key) >= 0
    ensures |u| == |pool| - 1
    ensures forall a :: 0 <= a < |u| ==>
      u[a] == pool[if a < KeyIndex(pool, z.key) then a else a + 1]
  {
    var i := KeyIndex(pool, z.key);
    pool[..i] + pool[i + 1..]
  }

  lemma DropPrefix(pool: seq<LootItem>, p: seq<LootItem>, z: LootItem, ys: seq<LootItem>)
    requires Layout(pool, p, [z] + ys)
    requires |p| <= KeyIndex(pool, z.key)
    ensures Prefix(Spliced(pool, z), p, ys)
  {
    var u := Spliced(pool, z);
    OtherKeys(pool, z, ys);
    forall a | 0 <= a < |p|
      ensures u[a] == LootItem(p[a].key, Some(Qty(p[a]) + SumKey(ys, p[a].key)))
    {
      assert u[a] == pool[a];
    }
  }

  lemma DropSuffix(pool: seq<LootItem>, p: seq<LootItem>, z: LootItem, ys: seq<LootItem>)
    requires Layout(pool, p, [z] + ys)
    requires |p| <= KeyIndex(pool, z.key)
    ensures Suffix(Spliced(pool, z), p, ys)
  {
    var i := KeyIndex(pool, z.key);
    var u := Spliced(pool, z);
    OtherKeys(pool, z, ys);
    forall a | |p| <= a < |u|
      ensures u[a].quantity == Some(SumKey(ys, u[a].key)) && SumKey(ys, u[a].key) > 0
    {
      var a' := if a < i then a else a + 1;
      assert u[a] == pool[a'];
    }
  }

  lemma DropDistinct(pool: seq<LootItem>, z: LootItem)
    requires DistinctKeys(pool) && KeyIndex(pool, z.key) >= 0
    ensures DistinctKeys(Spliced(pool, z))
  {
    var i := KeyIndex(pool, z.key);
    var u := Spliced(pool, z);
    forall a, b | 0 <= a < b < |u| ensures u[a].key != u[b].key {
      var a', b' := if a < i then a else a + 1, if b < i then b else b + 1;
      assert u[a] == pool[a'] && u[b] == pool[b'];
    }
  }

  lemma DropCovers(pool: seq<LootItem>, p: seq<LootItem>, z: LootItem, ys: seq<LootItem>)
    requires AllPositive(ys) && Positive(z) && Layout(pool, p, [z] + ys)
    requires KeyIndex(pool, z.key) >= 0 && SumKey(ys, z.key) == 0
    ensures Covers(Spliced(pool, z), ys)
  {
    var i := KeyIndex(pool, z.key);
    var u := Spliced(pool, z);
    forall k | SumKey(ys, k) > 0 ensures KeyIndex(u, k) >= 0 {
      SumKeyCons(z, ys, k);
      var b := KeyIndex(pool, k);
      assert b != i;
      if b < i { assert u[b].key == k; } else { assert u[b - 1].key == k; }
    }
  }

  /** Un-merging the last contribution to a key that `p` did not hold. */
  lemma UnmergeStepDrop(pool: seq<LootItem>, p: seq<LootItem>, z: LootItem, ys: seq<LootItem>)
    requires AllPositive(ys) && Positive(z)
    requires Layout(pool, p, [z] + ys)
    requires |p| <= KeyIndex(pool, z.key)
    requires SumKey(ys, z.key) == 0
    ensures Layout(UnmergeOne(pool, z), p, ys)
  {
    var i := KeyIndex(pool, z.key);
    SumKeyCons(z, ys, z.key);
    assert pool[i].quantity == Some(z.quantity.value);
    assert UnmergeOne(pool, z) == Spliced(pool, z);
    DropPrefix(pool, p, z, ys);
    DropSuffix(pool, p, z, ys);
    DropDistinct(pool, z);
    DropCovers(pool, p, z, ys);
  }

  lemma UnmergeStep(pool: seq<LootItem>, p: seq<LootItem>, z: LootItem, ys: seq<LootItem>)
    requires WellKept(p) && AllPositive(ys) && Positive(z)
    requires Layout(pool, p, [z] + ys)
    ensures Layout(UnmergeOne(pool, z), p, ys)
  {
    SumKeyCons(z, ys, z.key);
    SumKeyNonNegative(ys, z.key);
    var i := KeyIndex(pool, z.key);
    assert i >= 0;
    if i < |p| {
      assert Positive(p[i]);
      UnmergeStepKeep(pool, p, z, ys);
    } else if SumKey(ys, z.key) > 0 {
      UnmergeStepKeep(pool, p, z, ys);
    } else {
      UnmergeStepDrop(pool, p, z, ys);
    }
  }

  lemma {:induction false} MergedLayout(p: seq<LootItem>, items: seq<LootItem>)
    requires WellKept(p) && AllPositive(items)
    ensures Layout(Merged(p, items), p, items)
    decreases |items|
  {
    if |items| == 0 {
      LayoutStart(p);
    } else {
      var init := items[..|items| - 1];
      assert AllPositive(init) by {
        forall i | 0 <= i < |init| ensures Positive(init[i]) { assert init[i] == items[i]; }
      }
      MergedLayout(p, init);
      assert Positive(items[|items| - 1]);
      MergeStep(Merged(p, init), p, init, items[|items| - 1]);
      assert init + [items[|items| - 1]] == items;
    }
  }

  lemma {:induction false} UnmergedLayout(pool: seq<LootItem>, p: seq<LootItem>, items: seq<LootItem>, k: nat)
    requires WellKept(p) && AllPositive(items)
    requires Layout(pool, p, items)
    requires k <= |items|
    ensures Layout(Unmerged(pool, items[..k]), p, items[k..])
    decreases k
  {
    if k == 0 {
      assert items[..0] == [] && items[0..] == items;
    } else {
      UnmergedLayout(pool, p, items, k - 1);
      assert items[..k][..k - 1] == items[..k - 1];
      assert items[k - 1..] == [items[k - 1]] + items[k..];
      assert AllPositive(items[k..]) by {
        forall i | 0 <= i < |items[k..]| ensures Positive(items[k..][i]) {
          assert items[k..][i] == items[k + i];
        }
      }
      assert Positive(items[k - 1]);
      UnmergeStep(Unmerged(pool, items[..k - 1]), p, items[k - 1], items[k..]);
    }
  }

  /** Un-merging the same items, in the same order, gives back a well-kept loot
      pool exactly, when every item carries a positive integer quantity. */
  lemma LootRoundTrip(pool: seq<LootItem>, items: seq<LootItem>)
    requires WellKept(pool) && AllPositive(items)
    ensures Unmerged(Merged(pool, items), items) == pool
  {
    MergedLayout(pool, items);
    UnmergedLayout(Merged(pool, items), pool, items, |items|);
    assert items[..|items|] == items;
    assert items[|items|..] == [];
    LayoutEnd(Unmerged(Merged(pool, items), items), pool);
  }

  /** Merging items with positive quantities keeps the pool well kept. */
  lemma MergedWellKept(pool: seq<LootItem>, items: seq<LootItem>)
    requires WellKept(pool) && AllPositive(items)
    ensures WellKept(Merged(pool, items))
  {
    MergedLayout(pool, items);
    var m := Merged(pool, items);
    forall i | 0 <= i < |m| ensures Positive(m[i]) {
      if i < |pool| {
        assert Positive(pool[i]);
        SumKeyNonNegative(items, pool[i].key);
      }
    }
  }

  /** Restore after remove-and-loot returns the XP pool and the loot pool to their
      values before the removal, for a non-negative XP pool and XP value and
      positive integer item quantities. */
  lemma LedgerRoundTrip(l: Ledger, xp: Option<int>, items: seq<LootItem>)
    requires l.xpPool >= 0 && (xp.Some? ==> xp.value >= 0)
    requires WellKept(l.loot) && AllPositive(items)
    ensures Unlooted(Looted(l, xp, items), xp, items) == l
  {
    if |items| > 0 {
      LootRoundTrip(l.loot, items);
    }
  }

  // ---------------------------------------------------------------------------
  // Totals per key: a restore after other removals.

  /** Overwriting entry `i` changes only the totals of its old and new keys. */
  lemma SumKeyUpdate(pool: seq<LootItem>, i: int, e: LootItem, k: LootKey)
    requires 0 <= i < |pool|
    ensures SumKey(pool[i := e], k) ==
      SumKey(pool, k) - (if pool[i].key == k then Qty(pool[i]) else 0) + (if e.key == k then Qty(e) else 0)
  {
    var a, b := pool[..i], pool[i + 1..];
    assert pool == a + [pool[i]] + b;
    assert pool[i := e] == a + [e] + b;
    SumKeyAppend(a + [pool[i]], b, k);
    SumKeyAppend(a + [e], b, k);
    SumKeySnoc(a, pool[i], k);
    SumKeySnoc(a, e, k);
  }

  /** Splicing out entry `i` takes its quantity off its key's total. */
  lemma SumKeySplice(pool: seq<LootItem>, i: int, k: LootKey)
    requires 0 <= i < |pool|
    ensures SumKey(pool[..i] + pool[i + 1..], k) == SumKey(pool, k) - (if pool[i].key == k then Qty(pool[i]) else 0)
  {
    var a, b := pool[..i], pool[i + 1..];
    assert pool == a + [pool[i]] + b;
    SumKeyAppend(a + [pool[i]], b, k);
    SumKeyAppend(a, b, k);
    SumKeySnoc(a, pool[i], k);
  }

  /** In a pool with one entry per key, a key's total is the quantity of its entry. */
  lemma {:induction false} SumKeyDistinct(pool: seq<LootItem>, k: LootKey)
    requires DistinctKeys(pool)
    ensures SumKey(pool, k) == if KeyIndex(pool, k) >= 0 then Qty(pool[KeyIndex(pool, k)]) else 0
    decreases |pool|
  {
    if |pool| > 0 {
      var n := |pool| - 1;
      var init := pool[..n];
      assert forall j :: 0 <= j < n ==> init[j] == pool[j];
      SumKeyDistinct(init, k);
      if pool[n].key == k {
        assert KeyIndex(init, k) == -1;
        assert KeyIndex(pool, k) == n;
      } else {
        var r := KeyIndex(pool, k);
        if r >= 0 {
          assert init[r].key == k;
        }
        assert KeyIndex(pool, k) == KeyIndex(init, k);
      }
    }
  }

  /** Merging `z` adds its quantity to its own key's total and to no other. */
  lemma MergeOneSum(pool: seq<LootItem>, z: LootItem, k: LootKey)
    ensures SumKey(MergeOne(pool, z), k) == SumKey(pool, k) + (if z.key == k then Qty(z) else 0)
  {
    var i := KeyIndex(pool, z.key);
    if i > -1 && z.quantity.Some? {
      SumKeyUpdate(pool, i, pool[i].(quantity := Some(Qty(pool[i]) + z.quantity.value)), k);
    } else {
      SumKeySnoc(pool, z, k);
    }
  }

  /** Merging `items` adds what they carry to every key's total. */
  lemma {:induction false} MergedSum(pool: seq<LootItem>, items: seq<LootItem>, k: LootKey)
    ensures SumKey(Merged(pool, items), k) == SumKey(pool, k) + SumKey(items, k)
    decreases |items|
  {
    if |items| > 0 {
      var init := items[..|items| - 1];
      MergedSum(pool, init, k);
      MergeOneSum(Merged(pool, init), items[|items| - 1], k);
    }
  }

  /** Un-merging a positive `z` from a well-kept pool that holds at least `z`'s
      quantity for its key takes exactly that quantity off its key, and the pool
      stays well kept. */
  lemma UnmergeOneSum(pool: seq<LootItem>, z: LootItem)
    requires WellKept(pool) && Positive(z) && SumKey(pool, z.key) >= Qty(z)
    ensures WellKept(UnmergeOne(pool, z))
    ensures forall k :: SumKey(UnmergeOne(pool, z), k) == SumKey(pool, k) - (if z.key == k then Qty(z) else 0)
  {
    SumKeyDistinct(pool, z.key);
    var i := KeyIndex(pool, z.key);
    assert i >= 0;
    if Qty(pool[i]) - z.quantity.value <= 0 {
      assert UnmergeOne(pool, z) == Spliced(pool, z);
      SplicedSum(pool, z);
    } else {
      assert UnmergeOne(pool, z) == Lowered(pool, z);
      LoweredSum(pool, z);
    }
  }

  /** Splicing out the entry that holds exactly `z`'s quantity. */
  lemma SplicedSum(pool: seq<LootItem>, z: LootItem)
    requires WellKept(pool) && KeyIndex(pool, z.key) >= 0
    requires Qty(pool[KeyIndex(pool, z.key)]) == Qty(z)
    ensures WellKept(Spliced(pool, z))
    ensures forall k :: SumKey(Spliced(pool, z), k) == SumKey(pool, k) - (if z.key == k then Qty(z) else 0)
  {
    var i := KeyIndex(pool, z.key);
    var u := Spliced(pool, z);
    assert u == pool[..i] + pool[i + 1..];
    DropDistinct(pool, z);
    forall a | 0 <= a < |u| ensures Positive(u[a]) {
      assert u[a] == pool[if a < i then a else a + 1];
    }
    forall k ensures SumKey(u, k) == SumKey(pool, k) - (if z.key == k then Qty(z) else 0) {
      SumKeySplice(pool, i, k);
    }
  }

  /** Lowering the entry of `z`'s key by `z`'s quantity, which leaves it positive. */
  lemma LoweredSum(pool: seq<LootItem>, z: LootItem)
    requires WellKept(pool) && z.quantity.Some? && KeyIndex(pool, z.key) >= 0
    requires Qty(pool[KeyIndex(pool, z.key)]) - z.quantity.value > 0
    ensures WellKept(Lowered(pool, z))
    ensures forall k :: SumKey(Lowered(pool, z), k) == SumKey(pool, k) - (if z.key == k then Qty(z) else 0)
  {
    var i := KeyIndex(pool, z.key);
    var e := pool[i].(quantity := Some(Qty(pool[i]) - z.quantity.value));
    var u := Lowered(pool, z);
    assert u == pool[i := e];
    assert forall a :: 0 <= a < |u| ==> u[a].key == pool[a].key;
    assert forall a :: 0 <= a < |u| && a != i ==> u[a] == pool[a];
    forall k ensures SumKey(u, k) == SumKey(pool, k) - (if z.key == k then Qty(z) else 0) {
      SumKeyUpdate(pool, i, e, k);
    }
  }

  /** Un-merging positive `items` from a well-kept pool that holds at least their
      total for every key takes exactly that total off each key, and the pool stays
      well kept, whatever order its entries are in. */
  lemma {:induction false} UnmergedSum(pool: seq<LootItem>, items: seq<LootItem>)
    requires WellKept(pool) && AllPositive(items)
    requires forall k :: SumKey(items, k) <= SumKey(pool, k)
    ensures WellKept(Unmerged(pool, items))
    ensures forall k :: SumKey(Unmerged(pool, items), k) == SumKey(pool, k) - SumKey(items, k)
    decreases |items|
  {
    if |items| > 0 {
      var n := |items| - 1;
      var init, z := items[..n], items[n];
      assert Positive(z);
      assert AllPositive(init) by {
        forall i | 0 <= i < |init| ensures Positive(init[i]) { assert init[i] == items[i]; }
      }
      forall k ensures SumKey(init, k) <= SumKey(pool, k) {
        assert SumKey(items, k) == SumKey(init, k) + (if z.key == k then Qty(z) else 0);
      }
      UnmergedSum(pool, init);
      var u := Unmerged(pool, init);
      assert SumKey(items, z.key) == SumKey(init, z.key) + Qty(z);
      UnmergeOneSum(u, z);
      forall k ensures SumKey(Unmerged(pool, items), k) == SumKey(pool, k) - SumKey(items, k) {
        assert SumKey(items, k) == SumKey(init, k) + (if z.key == k then Qty(z) else 0);
      }
    }
  }

  /** What one removed combatant brings to the pools: its XP and its items. */
  datatype Spoils = Spoils(xp: Option<int>, items: seq<LootItem>)

  /** Spoils with no negative XP and only positive item quantities. */
  predicate Fair(s: Spoils) {
    (s.xp.Some? ==> s.xp.value >= 0) && AllPositive(s.items)
  }

  /** The ledger after removing-and-looting combatants with these spoils, in turn. */
  function LootedAll(l: Ledger, spoils: seq<Spoils>): Ledger
    decreases |spoils|
  {
    if |spoils| == 0 then l
    else
      var last := spoils[|spoils| - 1];
      Looted(LootedAll(l, spoils[..|spoils| - 1]), last.xp, last.items)
  }

  /** The XP the spoils carry. */
  function SpoilsXp(spoils: seq<Spoils>): int
    decreases |spoils|
  {
    if |spoils| == 0 then 0
    else
      var last := spoils[|spoils| - 1];
      SpoilsXp(spoils[..|spoils| - 1]) + (if last.xp.Some? then last.xp.value else 0)
  }

  /** The quantity the spoils carry for key `k`. */
  function SpoilsSum(spoils: seq<Spoils>, k: LootKey): int
    decreases |spoils|
  {
    if |spoils| == 0 then 0
    else SpoilsSum(spoils[..|spoils| - 1], k) + SumKey(spoils[|spoils| - 1].items, k)
  }

  /** Looting several combatants adds their XP to the XP pool and their items to
      every key's total. */
  lemma {:induction false} LootedAllTotals(l: Ledger, spoils: seq<Spoils>, k: LootKey)
    ensures LootedAll(l, spoils).xpPool == l.xpPool + SpoilsXp(spoils)
    ensures SumKey(LootedAll(l, spoils).loot, k) == SumKey(l.loot, k) + SpoilsSum(spoils, k)
    decreases |spoils|
  {
    if |spoils| > 0 {
      var init, last := spoils[..|spoils| - 1], spoils[|spoils| - 1];
      LootedAllTotals(l, init, k);
      if |last.items| > 0 {
        MergedSum(LootedAll(l, init).loot, last.items, k);
      }
    }
  }

  /** Fair spoils carry no negative XP and no negative quantity, and looting them
      keeps the pool well kept. */
  lemma {:induction false} FairSpoils(l: Ledger, spoils: seq<Spoils>, k: LootKey)
    requires WellKept(l.loot)
    requires forall j :: 0 <= j < |spoils| ==> Fair(spoils[j])
    ensures SpoilsXp(spoils) >= 0 && SpoilsSum(spoils, k) >= 0
    ensures WellKept(LootedAll(l, spoils).loot)
    decreases |spoils|
  {
    if |spoils| > 0 {
      var init, last := spoils[..|spoils| - 1], spoils[|spoils| - 1];
      assert Fair(last);
      FairSpoils(l, init, k);
      SumKeyNonNegative(last.items, k);
      MergedWellKept(LootedAll(l, init).loot, last.items);
    }
  }

  /** Restoring a looted combatant after other combatants were looted takes back
      exactly its own share: the XP pool and every key's total come out as if only
      the others had been looted, and the pool stays well kept. Entries may come
      back in another order. */
  lemma RestoreAfterOthers(l: Ledger, s: Spoils, others: seq<Spoils>)
    requires l.xpPool >= 0 && WellKept(l.loot) && Fair(s)
    requires forall j :: 0 <= j < |others| ==> Fair(others[j])
    ensures var r := Unlooted(LootedAll(Looted(l, s.xp, s.items), others), s.xp, s.items);
      && WellKept(r.loot)
      && r.xpPool == LootedAll(l, others).xpPool
      && forall k :: SumKey(r.loot, k) == SumKey(LootedAll(l, others).loot, k)
  {
    var l1 := Looted(l, s.xp, s.items);
    var m := LootedAll(l1, others);
    if |s.items| > 0 {
      MergedWellKept(l.loot, s.items);
    }
    forall k ensures SumKey(m.loot, k) == SumKey(l.loot, k) + SumKey(s.items, k) + SpoilsSum(others, k)
      && SumKey(LootedAll(l, others).loot, k) == SumKey(l.loot, k) + SpoilsSum(others, k)
      && SumKey(l.loot, k) >= 0 && SpoilsSum(others, k) >= 0
    {
      LootedAllTotals(l1, others, k);
      LootedAllTotals(l, others, k);
      if |s.items| > 0 {
        MergedSum(l.loot, s.items, k);
      }
      SumKeyNonNegative(l.loot, k);
      FairSpoils(l, others, k);
    }
    var k0 := LootKey("", None, false);
    LootedAllTotals(l1, others, k0);
    LootedAllTotals(l, others, k0);
    FairSpoils(l1, others, k0);
    if |s.items| > 0 {
      UnmergedSum(m.loot, s.items);
    }
  }
}
