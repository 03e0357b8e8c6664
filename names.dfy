/** Names for monsters added with unique names: `generateMonsterName`
    (App.js:868-904). A random first/last pair is tried up to 100 times; when all
    are taken, the template name is numbered `"<name> 1"`, `"<name> 2"`, ... until
    one is free. */
module Names {
  import opened Common

  /** The first and last names listed for one species. */
  datatype NameLists = NameLists(first: seq<string>, last: seq<string>)

  const MaxAttempts: nat := 100

  // ---------------------------------------------------------------------------
  // Decimal numerals, as `${counter}` prints them.

  function DigitChar(d: nat): char
    requires d < 10
  {
    "0123456789"[d]
  }

  function DigitValue(ch: char): int {
    if '0' <= ch <= '9' then ch as int - '0' as int else 0
  }

  /** The decimal numeral of `n`, without leading zeros. */
  function Decimal(n: nat): (r: string)
    ensures |r| >= 1
    ensures forall i :: 0 <= i < |r| ==> '0' <= r[i] <= '9'
    decreases n
  {
    if n < 10 then [DigitChar(n)] else Decimal(n / 10) + [DigitChar(n % 10)]
  }

  /** The value of a numeral. */
  function ParseDecimal(s: string): int
    decreases |s|
  {
    if |s| == 0 then 0 else ParseDecimal(s[..|s| - 1]) * 10 + DigitValue(s[|s| - 1])
  }

  lemma DigitRoundTrip(d: nat)
    requires d < 10
    ensures DigitValue(DigitChar(d)) == d
  {
    assert "0123456789"[d] as int - '0' as int == d;
  }

  /** Reading back a numeral gives the number. */
  lemma {:induction false} DecimalRoundTrip(n: nat)
    ensures ParseDecimal(Decimal(n)) == n
    decreases n
  {
    if n < 10 {
      DigitRoundTrip(n);
      assert Decimal(n)[..0] == [];
    } else {
      DecimalRoundTrip(n / 10);
      DigitRoundTrip(n % 10);
      var s := Decimal(n);
      assert s[..|s| - 1] == Decimal(n / 10);
    }
  }

  /** Different numbers print differently. */
  lemma DecimalInjective(n: nat, m: nat)
    requires Decimal(n) == Decimal(m)
    ensures n == m
  {
    DecimalRoundTrip(n);
    DecimalRoundTrip(m);
  }

  /** The fallback name with counter `k`. */
  function Fallback(name: string, k: nat): string {
    name + " " + Decimal(k)
  }

  /** Different counters give different fallback names. */
  lemma FallbackInjective(name: string, j: nat, k: nat)
    requires Fallback(name, j) == Fallback(name, k)
    ensures j == k
  {
    var p := name + " ";
    assert Fallback(name, j)[|p|..] == Decimal(j);
    assert Fallback(name, k)[|p|..] == Decimal(k);
    DecimalInjective(j, k);
  }

  // ---------------------------------------------------------------------------
  // The random attempts.

  /** The pair tried at attempt `t`, where `pickFirst(t)` and `pickLast(t)` stand
      for the two `Math.random()` draws: the index is the draw modulo the list
      length, and an empty last-name list yields `undefined`. */
  function Candidate(names: NameLists, pickFirst: nat -> nat, pickLast: nat -> nat, t: nat): string
    requires |names.first| > 0
  {
    var last := if |names.last| == 0 then "undefined" else names.last[pickLast(t) % |names.last|];
    names.first[pickFirst(t) % |names.first|] + " " + last
  }

  /** The candidate of the first attempt from `t` on, below `MaxAttempts`, whose
      name is not taken; `None` when every remaining attempt is taken. */
  function FirstFree(names: NameLists, pickFirst: nat -> nat, pickLast: nat -> nat,
                     taken: set<string>, t: nat): (r: Option<string>)
    requires |names.first| > 0
    ensures r.Some? ==> r.value !in taken
    ensures r.Some? ==>
      exists u :: t <= u < MaxAttempts && r.value == Candidate(names, pickFirst, pickLast, u)
        && forall v :: t <= v < u ==> Candidate(names, pickFirst, pickLast, v) in taken
    ensures r.None? ==> forall u :: t <= u < MaxAttempts ==> Candidate(names, pickFirst, pickLast, u) in taken
    decreases MaxAttempts - t
  {
    if t >= MaxAttempts then None
    else if Candidate(names, pickFirst, pickLast, t) !in taken then Some(Candidate(names, pickFirst, pickLast, t))
    else FirstFree(names, pickFirst, pickLast, taken, t + 1)
  }

  /** The random loop of App.js:876-889: the first attempt whose pair is in
      neither `used` nor `batch`, or `""` after `MaxAttempts` taken pairs. */
  method RandomName(names: NameLists, pickFirst: nat -> nat, pickLast: nat -> nat,
                    used: set<string>, batch: set<string>) returns (uniqueName: string)
    requires |names.first| > 0
    ensures FirstFree(names, pickFirst, pickLast, used + batch, 0).Some? ==>
      uniqueName == FirstFree(names, pickFirst, pickLast, used + batch, 0).value
    ensures FirstFree(names, pickFirst, pickLast, used + batch, 0).None? ==> uniqueName == ""
  {
    uniqueName := "";
    var attempts := 0;
    while attempts < MaxAttempts
      invariant 0 <= attempts <= MaxAttempts
      invariant FirstFree(names, pickFirst, pickLast, used + batch, 0)
             == FirstFree(names, pickFirst, pickLast, used + batch, attempts)
    {
      var potentialName := Candidate(names, pickFirst, pickLast, attempts);
      if potentialName !in used && potentialName !in batch {
        uniqueName := potentialName;
        return;
      }
      attempts := attempts + 1;
    }
  }

  /** The numbered loop of App.js:891-902: `"<name> <counter>"` for the
      smallest counter from 1 whose name is in neither `used` nor `batch`. It
      ends because only finitely many names are taken. */
  method FallbackName(name: string, used: set<string>, batch: set<string>) returns (uniqueName: string)
    ensures uniqueName !in used && uniqueName !in batch
    ensures exists k ::
      k >= 1 && uniqueName == Fallback(name, k) && forall j :: 1 <= j < k ==> Fallback(name, j) in used + batch
  {
    var counter: nat := 1;
    ghost var tried: set<string> := {};
    while true
      invariant counter >= 1 && tried <= used + batch && |tried| == counter - 1
      invariant forall j :: 1 <= j < counter ==> Fallback(name, j) in used + batch
      invariant forall j :: j >= counter ==> Fallback(name, j) !in tried
      decreases |used + batch| - |tried|
    {
      var fallbackName := Fallback(name, counter);
      if fallbackName !in used && fallbackName !in batch {
        return fallbackName;
      }
      forall j | j >= counter + 1
        ensures Fallback(name, j) != fallbackName
      {
        if Fallback(name, j) == fallbackName {
          FallbackInjective(name, j, counter);
        }
      }
      SubsetCard(tried + {fallbackName}, used + batch);
      tried := tried + {fallbackName};
      counter := counter + 1;
    }
  }

  lemma SubsetCard<T>(a: set<T>, b: set<T>)
    requires a <= b
    ensures |a| <= |b|
  {
    assert b == a + (b - a);
    assert a * (b - a) == {};
  }
}
