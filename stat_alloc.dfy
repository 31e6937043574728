/** The integer phases of `allocate_stats` in scripts/agb_build_csv.py. The
    allocation is a nine-slot array in the order of `stats` (hp, prana,
    focus, stamina, strength, intelligence, defense, speed, power). The
    rounded shares `int(round(pcts[k] * total))` and the remainder order
    `order` come from floating point and are inputs here. */
module StatAlloc {
  import opened Wrappers
  import opened Seqs

  const StatCount: nat := 9

  datatype Rarity = Common | Uncommon | Rare | Epic | Legendary | Mythic

  /** `rarity_budget` */
  function Budget(r: Rarity): (b: int)
    ensures 360 <= b <= 560
  {
    match r
    case Common => 360
    case Uncommon => 400
    case Rare => 440
    case Epic => 480
    case Legendary => 520
    case Mythic => 560
  }

  /** `rarity_caps` */
  function Caps(r: Rarity): (c: (int, int))
    ensures 25 <= c.0 < c.1 <= 95
  {
    match r
    case Common => (25, 70)
    case Uncommon => (30, 80)
    case Rare => (35, 85)
    case Epic => (40, 90)
    case Legendary => (45, 92)
    case Mythic => (50, 95)
  }

  function Sign(d: int): int
  {
    if d > 0 then 1 else if d < 0 then -1 else 0
  }

  function Abs(d: int): nat
  {
    if d < 0 then -d else d
  }

  /** Python's `min(max(x, lo), hi)`. */
  function ClampValue(x: int, lo: int, hi: int): (y: int)
    ensures lo <= hi ==> lo <= y <= hi
    ensures lo <= x <= hi ==> y == x
    ensures x < lo ==> y == Min(lo, hi)
    ensures x > hi ==> y == hi
  {
    var m := if x < lo then lo else x;
    if m > hi then hi else m
  }

  function Min(a: int, b: int): int
  {
    if a < b then a else b
  }

  /** The index chosen when raising: among the stats below `hi`, the first
      with the most headroom `hi - a[k]`; `None` when no stat is below `hi`.
      It scans the first `n` stats. */
  function PickRaise(a: seq<int>, hi: int, n: nat): (r: Option<nat>)
    requires n <= |a|
    ensures r.None? <==> forall k :: 0 <= k < n ==> a[k] >= hi
    ensures r.Some? ==> r.value < n && a[r.value] < hi
    ensures r.Some? ==> forall k :: 0 <= k < n && a[k] < hi ==> hi - a[k] <= hi - a[r.value]
    ensures r.Some? ==> forall k :: 0 <= k < r.value && a[k] < hi ==> hi - a[k] < hi - a[r.value]
  {
    if n == 0 then None
    else
      var b := PickRaise(a, hi, n - 1);
      if a[n - 1] >= hi then b
      else if b.None? || a[n - 1] < a[b.value] then Some(n - 1)
      else b
  }

  /** The index chosen when lowering: among the stats above `lo`, the first
      with the most excess `a[k] - lo`; `None` when no stat is above `lo`. */
  function PickLower(a: seq<int>, lo: int, n: nat): (r: Option<nat>)
    requires n <= |a|
    ensures r.None? <==> forall k :: 0 <= k < n ==> a[k] <= lo
    ensures r.Some? ==> r.value < n && a[r.value] > lo
    ensures r.Some? ==> forall k :: 0 <= k < n && a[k] > lo ==> a[k] - lo <= a[r.value] - lo
    ensures r.Some? ==> forall k :: 0 <= k < r.value && a[k] > lo ==> a[k] - lo < a[r.value] - lo
  {
    if n == 0 then None
    else
      var b := PickLower(a, lo, n - 1);
      if a[n - 1] <= lo then b
      else if b.None? || a[n - 1] > a[b.value] then Some(n - 1)
      else b
  }

  /** The correction after rounding: while `diff` is not zero, and for at
      most 1000 steps, move the stat `order[i % 9]` by one unit towards the
      total. */
  method CorrectRounding(a: array<int>, total: int, order: seq<nat>)
    requires a.Length == StatCount && |order| == StatCount
    requires forall k :: 0 <= k < |order| ==> order[k] < StatCount
    modifies a
    ensures var d := total - Sum(old(a[..]));
      Sum(a[..]) == total - Sign(d) * (Abs(d) - Min(Abs(d), 1000))
    ensures total >= Sum(old(a[..])) ==> forall k :: 0 <= k < StatCount ==> old(a[k]) <= a[k]
    ensures total <= Sum(old(a[..])) ==> forall k :: 0 <= k < StatCount ==> a[k] <= old(a[k])
  {
    var diff := total - Sum(a[..]);
    ghost var d0 := diff;
    ghost var a0 := a[..];
    if diff != 0 {
      var step := if diff > 0 then 1 else -1;
      var i := 0;
      while diff != 0 && i < 1000
        invariant 0 <= i <= 1000
        invariant diff == total - Sum(a[..])
        invariant diff == d0 - step * i
        invariant Sign(diff) == 0 || Sign(diff) == step
        invariant step == Sign(d0) && i <= Abs(d0)
        invariant step > 0 ==> forall k :: 0 <= k < StatCount ==> a0[k] <= a[k]
        invariant step < 0 ==> forall k :: 0 <= k < StatCount ==> a[k] <= a0[k]
        decreases 1000 - i
      {
        var k := order[i % StatCount];
        SumUpdate(a[..], k, a[k] + step);
        a[k] := a[k] + step;
        diff := diff - step;
        i := i + 1;
      }
    }
  }

  /** `for k in stats: alloc[k] = int(min(max(alloc[k], min_cap), max_cap))` */
  method Clamp(a: array<int>, lo: int, hi: int)
    modifies a
    ensures forall k :: 0 <= k < a.Length ==> a[k] == ClampValue(old(a[k]), lo, hi)
  {
    for k := 0 to a.Length
      invariant forall j :: 0 <= j < k ==> a[j] == ClampValue(old(a[j]), lo, hi)
      invariant forall j :: k <= j < a.Length ==> a[j] == old(a[j])
    {
      a[k] := ClampValue(a[k], lo, hi);
    }
  }

  /** The capped rebalance: for at most 2000 steps, while the sum misses
      the total, raise the stat with the most headroom below `hi` or lower
      the stat with the most excess over `lo`, stopping early when no stat
      can move. */
  method Rebalance(a: array<int>, total: int, lo: int, hi: int)
    requires a.Length == StatCount
    modifies a
    ensures forall k :: 0 <= k < StatCount ==> (old(a[k]) <= hi ==> a[k] <= hi)
    ensures forall k :: 0 <= k < StatCount ==> (old(a[k]) >= lo ==> a[k] >= lo)
    ensures total >= Sum(old(a[..])) ==> Sum(old(a[..])) <= Sum(a[..]) <= total
    ensures total <= Sum(old(a[..])) ==> total <= Sum(a[..]) <= Sum(old(a[..]))
    ensures || Sum(a[..]) == total
            || (Sum(a[..]) < total
                && ((forall k :: 0 <= k < StatCount ==> a[k] >= hi)
                    || Sum(a[..]) == Sum(old(a[..])) + 2000))
            || (Sum(a[..]) > total
                && ((forall k :: 0 <= k < StatCount ==> a[k] <= lo)
                    || Sum(a[..]) == Sum(old(a[..])) - 2000))
  {
    var cur := Sum(a[..]);
    if cur != total {
      var diff := total - cur;
      ghost var a0 := a[..];
      var step := 0;
      while step < 2000
        invariant 0 <= step <= 2000
        invariant diff == total - Sum(a[..])
        invariant total >= cur ==> Sum(a[..]) == cur + step && diff >= 0
        invariant total < cur ==> Sum(a[..]) == cur - step && diff <= 0
        invariant forall k :: 0 <= k < StatCount ==> (a0[k] <= hi ==> a[k] <= hi)
        invariant forall k :: 0 <= k < StatCount ==> (a0[k] >= lo ==> a[k] >= lo)
      {
        if diff == 0 {
          break;
        }
        if diff > 0 {
          var c := PickRaise(a[..], hi, StatCount);
          if c.None? {
            break;
          }
          SumUpdate(a[..], c.value, a[c.value] + 1);
          a[c.value] := a[c.value] + 1;
          diff := diff - 1;
        } else {
          var c := PickLower(a[..], lo, StatCount);
          if c.None? {
            break;
          }
          SumUpdate(a[..], c.value, a[c.value] - 1);
          a[c.value] := a[c.value] - 1;
          diff := diff + 1;
        }
        step := step + 1;
      }
    }
  }

  lemma SumBelowCap(s: seq<int>, c: int, k: nat)
    requires k < |s| && s[k] < c
    requires forall j :: 0 <= j < |s| ==> s[j] <= c
    ensures Sum(s) < c * |s|
  {
    SumUpdate(s, k, c);
    SumAtMost(s[k := c], c);
  }

  lemma SumAboveCap(s: seq<int>, c: int, k: nat)
    requires k < |s| && s[k] > c
    requires forall j :: 0 <= j < |s| ==> s[j] >= c
    ensures Sum(s) > c * |s|
  {
    SumUpdate(s, k, c);
    SumAtLeast(s[k := c], c);
  }

  /** `allocate_stats` on the rounded shares. With ordered caps every stat
      ends within them; when the caps' spread fits the 2000-step bound, the
      sum is exactly `total` if the caps allow it, and otherwise every stat
      sits at the cap it was pushed against. */
  method AllocateStats(rounded: seq<int>, total: int, order: seq<nat>, lo: int, hi: int)
    returns (alloc: seq<int>)
    requires |rounded| == StatCount && |order| == StatCount
    requires forall k :: 0 <= k < |order| ==> order[k] < StatCount
    ensures |alloc| == StatCount
    ensures lo <= hi ==> forall k :: 0 <= k < StatCount ==> lo <= alloc[k] <= hi
    ensures lo <= hi && StatCount * (hi - lo) <= 2000 && StatCount * lo <= total <= StatCount * hi
            ==> Sum(alloc) == total
    ensures lo <= hi && StatCount * (hi - lo) <= 2000 && total > StatCount * hi
            ==> forall k :: 0 <= k < StatCount ==> alloc[k] == hi
    ensures lo <= hi && StatCount * (hi - lo) <= 2000 && total < StatCount * lo
            ==> forall k :: 0 <= k < StatCount ==> alloc[k] == lo
  {
    var a := new int[StatCount](k requires 0 <= k < StatCount => rounded[k]);
    CorrectRounding(a, total, order);
    Clamp(a, lo, hi);
    ghost var clamped := a[..];
    Rebalance(a, total, lo, hi);
    alloc := a[..];
    if lo <= hi {
      assert |clamped| == StatCount && |alloc| == StatCount;
      SumAtMost(clamped, hi);
      SumAtLeast(clamped, lo);
      SumAtMost(alloc, hi);
      SumAtLeast(alloc, lo);
      if exists k :: 0 <= k < StatCount && alloc[k] < hi {
        var k :| 0 <= k < StatCount && alloc[k] < hi;
        SumBelowCap(alloc, hi, k);
      } else {
        SumAtLeast(alloc, hi);
      }
      if exists k :: 0 <= k < StatCount && alloc[k] > lo {
        var k :| 0 <= k < StatCount && alloc[k] > lo;
        SumAboveCap(alloc, lo, k);
      } else {
        SumAtMost(alloc, lo);
      }
    }
  }

  /** The caps of every rarity are ordered, admit the rarity's budget and
      fit the 2000-step bound, so `AllocateStats` meets the budget exactly. */
  lemma RarityTableFits(r: Rarity)
    ensures var (lo, hi) := Caps(r);
      && lo <= hi
      && StatCount * lo <= Budget(r) <= StatCount * hi
      && StatCount * (hi - lo) <= 2000
  {
  }
}
