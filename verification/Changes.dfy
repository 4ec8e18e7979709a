/** Line-level change counts and their division among the authors of a window. */
module Changes {
  import opened Sorting

  type UserId = nat

  // --- counting lines -------------------------------------------------------

  predicate IsLineBreak(c: char) {
    c == '\n' || c == '\r' || c == '\U{b}' || c == '\U{c}' || c == '\U{1c}' || c == '\U{1d}' || c == '\U{1e}'
    || c == '\U{85}' || c == '\U{2028}' || c == '\U{2029}'
  }

  // Python's splitlines, `line` being the start of the current line.
  function SplitFrom(text: string, line: string): seq<string> {
    if text == "" then (if line == "" then [] else [line])
    else if !IsLineBreak(text[0]) then SplitFrom(text[1..], line + [text[0]])
    else if text[0] == '\r' && |text| > 1 && text[1] == '\n' then [line] + SplitFrom(text[2..], "")
    else [line] + SplitFrom(text[1..], "")
  }

  function SplitLines(text: string): seq<string> {
    SplitFrom(text, "")
  }

  datatype Tag = Equal | Replace | Delete | Insert

  datatype Opcode = Opcode(tag: Tag, i1: nat, i2: nat, j1: nat, j2: nat)

  // What difflib promises: blocks that tile both lists in order, the "equal"
  // ones holding the same lines.
  ghost predicate Tiles(ops: seq<Opcode>, a: seq<string>, b: seq<string>, i: nat, j: nat)
    decreases |ops|
  {
    if ops == [] then i == |a| && j == |b|
    else
      var o := ops[0];
      && o.i1 == i && o.j1 == j && i <= o.i2 <= |a| && j <= o.j2 <= |b|
      && (o.tag.Equal? ==> a[i..o.i2] == b[j..o.j2])
      && (o.tag.Delete? ==> o.j1 == o.j2)
      && (o.tag.Insert? ==> o.i1 == o.i2)
      && Tiles(ops[1..], a, b, o.i2, o.j2)
  }

  // How many lines the equal blocks keep.
  function KeptLines(ops: seq<Opcode>): int {
    if ops == [] then 0
    else (if ops[0].tag.Equal? then ops[0].i2 - ops[0].i1 else 0) + KeptLines(ops[1..])
  }

  type Differ = (seq<string>, seq<string>) -> seq<Opcode>

  ghost predicate IsDiffer(diff: Differ) {
    forall a, b :: Tiles(diff(a, b), a, b, 0, 0)
  }

  datatype Stats = Stats(added: int, removed: int)

  // One block that replaces everything, for instance.
  lemma SomethingDiffs()
    ensures IsDiffer((a: seq<string>, b: seq<string>) => [Opcode(Replace, 0, |a|, 0, |b|)])
  {
    forall a: seq<string>, b: seq<string>
      ensures Tiles([Opcode(Replace, 0, |a|, 0, |b|)], a, b, 0, 0)
    {
      var ops := [Opcode(Replace, 0, |a|, 0, |b|)];
      assert Tiles(ops[1..], a, b, |a|, |b|);
    }
  }

  function LineStatsOf(before: string, after: string, diff: Differ): Stats {
    if before == after then Stats(0, 0)
    else
      var a, b := SplitLines(before), SplitLines(after);
      var kept := KeptLines(diff(a, b));
      Stats(|b| - kept, |a| - kept)
  }

  lemma {:induction false} KeptLinesFit(ops: seq<Opcode>, a: seq<string>, b: seq<string>, i: nat, j: nat)
    requires i <= |a| && j <= |b| && Tiles(ops, a, b, i, j)
    ensures 0 <= KeptLines(ops) <= |a| - i && KeptLines(ops) <= |b| - j
    decreases |ops|
  {
    if ops == [] {
    } else {
      var o := ops[0];
      KeptLinesFit(ops[1..], a, b, o.i2, o.j2);
      if o.tag.Equal? {
        assert |a[i..o.i2]| == |b[j..o.j2]|;
      }
    }
  }

  /** `line_stats`: the lines in no equal block, on either side; so their difference is the
      growth of the text in lines, whichever tiling difflib chose. */
  method LineStats(before: string, after: string, diff: Differ) returns (added: nat, removed: nat)
    requires IsDiffer(diff)
    ensures Stats(added, removed) == LineStatsOf(before, after, diff)
    ensures added - removed == |SplitLines(after)| - |SplitLines(before)|
  {
    if before == after {
      return 0, 0;
    }
    var a, b := SplitLines(before), SplitLines(after);
    var ops := diff(a, b);
    assert Tiles(ops, a, b, 0, 0);
    added, removed := 0, 0;
    ghost var i: nat, j: nat := 0, 0;
    for k := 0 to |ops|
      invariant i <= |a| && j <= |b| && Tiles(ops[k..], a, b, i, j)
      invariant removed == i - (KeptLines(ops) - KeptLines(ops[k..]))
      invariant added == j - (KeptLines(ops) - KeptLines(ops[k..]))
    {
      var o := ops[k];
      assert ops[k..][0] == o && ops[k..][1..] == ops[k + 1..];
      if o.tag.Equal? {
        assert |a[i..o.i2]| == |b[j..o.j2]|;
      }
      if o.tag == Replace || o.tag == Delete {
        removed := removed + (o.i2 - o.i1);
      }
      if o.tag == Replace || o.tag == Insert {
        added := added + (o.j2 - o.j1);
      }
      i, j := o.i2, o.j2;
    }
    assert ops[|ops|..] == [];
  }

  lemma LineStatsTelescope(before: string, after: string, diff: Differ)
    requires IsDiffer(diff)
    ensures var s := LineStatsOf(before, after, diff);
            && s.added >= 0 && s.removed >= 0
            && s.added - s.removed == |SplitLines(after)| - |SplitLines(before)|
  {
    var a, b := SplitLines(before), SplitLines(after);
    assert Tiles(diff(a, b), a, b, 0, 0);
    KeptLinesFit(diff(a, b), a, b, 0, 0);
  }

  // --- dividing a total ---------------------------------------------------------

  function Sum(s: seq<int>): int {
    if s == [] then 0 else s[0] + Sum(s[1..])
  }

  function Whole(weights: seq<nat>): (w: nat)
    ensures w > 0
  {
    if Sum(weights) > 0 then Sum(weights) else 1
  }

  // The whole part and the fractional part (times the whole) of `total * w / whole`.
  function Floors(weights: seq<nat>, total: nat): (f: seq<int>)
    ensures |f| == |weights|
  {
    var whole := Whole(weights);
    seq(|weights|, i requires 0 <= i < |weights| => total * weights[i] / whole)
  }

  function Remainders(weights: seq<nat>, total: nat): (r: seq<int>)
    ensures |r| == |weights|
  {
    var whole := Whole(weights);
    seq(|weights|, i requires 0 <= i < |weights| => total * weights[i] % whole)
  }

  function Leftover(weights: seq<nat>, total: nat): int {
    total - Sum(Floors(weights, total))
  }

  function Range(n: nat): (r: seq<nat>)
    ensures |r| == n && forall i :: 0 <= i < n ==> r[i] == i
  {
    if n == 0 then [] else Range(n - 1) + [n - 1]
  }

  function KeyOf(rems: seq<int>, i: nat): int {
    if i < |rems| then rems[i] else 0
  }

  function RemainderKey(rems: seq<int>): nat -> int {
    (i: nat) => KeyOf(rems, i)
  }

  // The authors by falling fractional part, ties in their order of appearance.
  function ByRemainder(rems: seq<int>): seq<nat> {
    SortDesc(Range(|rems|), RemainderKey(rems))
  }

  // The shares after the first `k` authors in that order got one more.
  function Bumped(floors: seq<int>, order: seq<nat>, k: nat): (s: seq<int>)
    requires k <= |order|
    ensures |s| == |floors|
  {
    seq(|floors|, i requires 0 <= i < |floors| => floors[i] + (if i in order[..k] then 1 else 0))
  }

  function Capped(leftover: int, n: nat): nat {
    if leftover < 0 then 0 else if leftover > n then n else leftover
  }

  function SharesOf(weights: seq<nat>, total: nat): (s: seq<int>)
    ensures |s| == |weights|
  {
    var order := ByRemainder(Remainders(weights, total));
    OrderIsPermutation(Remainders(weights, total));
    Bumped(Floors(weights, total), order, Capped(Leftover(weights, total), |weights|))
  }

  lemma CountAppend(s: seq<nat>, last: nat, x: nat)
    ensures multiset(s + [last])[x] == multiset(s)[x] + (if x == last then 1 else 0)
  {
  }

  lemma {:induction false} RangeOnce(n: nat, x: nat)
    ensures multiset(Range(n))[x] == if x < n then 1 else 0
  {
    if n == 0 {
    } else {
      var last: nat := n - 1;
      RangeOnce(last, x);
      CountAppend(Range(last), last, x);
    }
  }

  lemma OrderTwice(order: seq<nat>, i: nat, j: nat)
    requires i < j < |order| && order[i] == order[j]
    ensures multiset(order)[order[j]] >= 2
  {
    assert order == order[..j] + [order[j]] + order[j + 1..];
    assert order[i] in order[..j];
    assert multiset(order[..j])[order[j]] >= 1;
  }

  // Every author once, by falling remainder.
  ghost predicate IsOrder(order: seq<nat>, rems: seq<int>) {
    && |order| == |rems|
    && (forall i :: 0 <= i < |order| ==> order[i] < |rems|)
    && (forall i, j :: 0 <= i < j < |order| ==> order[i] != order[j])
    && (forall i, j :: 0 <= i < j < |order| ==> KeyOf(rems, order[i]) >= KeyOf(rems, order[j]))
    && (forall x :: 0 <= x < |rems| ==> x in order)
  }

  lemma OrderIsPermutation(rems: seq<int>)
    ensures IsOrder(ByRemainder(rems), rems)
  {
    var order := ByRemainder(rems);
    SortDescSorts(Range(|rems|), RemainderKey(rems));
    forall x: nat
      ensures multiset(order)[x] == if x < |rems| then 1 else 0
    {
      RangeOnce(|rems|, x);
    }
    forall x | 0 <= x < |rems|
      ensures x in order
    {
      assert x in multiset(order);
    }
    forall i | 0 <= i < |order|
      ensures order[i] < |rems|
    {
      assert order[i] in multiset(order);
    }
    forall i, j | 0 <= i < j < |order|
      ensures order[i] != order[j] && KeyOf(rems, order[i]) >= KeyOf(rems, order[j])
    {
      assert RemainderKey(rems)(order[i]) >= RemainderKey(rems)(order[j]);
      if order[i] == order[j] {
        OrderTwice(order, i, j);
      }
    }
  }

  lemma {:induction false} SumUpdate(s: seq<int>, i: nat, v: int)
    requires i < |s|
    ensures Sum(s[i := v]) == Sum(s) - s[i] + v
  {
    if i == 0 {
      assert s[0 := v][1..] == s[1..];
    } else {
      assert s[i := v][1..] == s[1..][i - 1 := v];
      SumUpdate(s[1..], i - 1, v);
    }
  }

  lemma {:induction false} BumpedSum(floors: seq<int>, order: seq<nat>, k: nat)
    requires k <= |order| == |floors|
    requires forall i :: 0 <= i < |order| ==> order[i] < |floors|
    requires forall i, j :: 0 <= i < j < |order| ==> order[i] != order[j]
    ensures Sum(Bumped(floors, order, k)) == Sum(floors) + k
  {
    if k == 0 {
      assert Bumped(floors, order, 0) == floors;
    } else {
      var s := Bumped(floors, order, k - 1);
      var i := order[k - 1];
      BumpedSum(floors, order, k - 1);
      assert order[..k] == order[..k - 1] + [i];
      assert i !in order[..k - 1];
      assert Bumped(floors, order, k) == s[i := s[i] + 1];
      SumUpdate(s, i, s[i] + 1);
    }
  }

  lemma DivMod(x: nat, whole: nat)
    requires whole > 0
    ensures x == whole * (x / whole) + x % whole && 0 <= x % whole < whole && x / whole >= 0
  {
  }

  lemma Distribute(a: int, b: int, c: int)
    ensures a * (b + c) == a * b + a * c
  {
  }

  lemma {:induction false} SumScaled(weights: seq<nat>, total: nat, whole: nat, floors: seq<int>, rems: seq<int>)
    requires whole > 0 && |floors| == |rems| == |weights|
    requires forall i :: 0 <= i < |weights| ==>
               floors[i] == total * weights[i] / whole && rems[i] == total * weights[i] % whole
    ensures total * Sum(weights) == whole * Sum(floors) + Sum(rems)
    ensures 0 <= Sum(rems) && Sum(weights) >= 0 && Sum(floors) >= 0
  {
    if weights == [] {
    } else {
      SumScaled(weights[1..], total, whole, floors[1..], rems[1..]);
      DivMod(total * weights[0], whole);
      Distribute(total, weights[0], Sum(weights[1..]));
      Distribute(whole, floors[0], Sum(floors[1..]));
    }
  }

  ghost predicate Dominated(s: seq<int>, t: seq<int>, c: int) {
    |s| == |t| && forall i :: 0 <= i < |s| ==> (t[i] == 0 && s[i] <= 0) || (t[i] == 1 && s[i] <= c)
  }

  lemma {:induction false} SumDominated(s: seq<int>, t: seq<int>, c: int)
    requires Dominated(s, t, c)
    ensures Sum(s) <= c * Sum(t)
  {
    if s == [] {
    } else {
      SumDominated(s[1..], t[1..], c);
      Distribute(c, t[0], Sum(t[1..]));
    }
  }

  lemma {:induction false} SumZeros(s: seq<int>)
    requires forall i :: 0 <= i < |s| ==> s[i] == 0
    ensures Sum(s) == 0
  {
    if s == [] {
    } else {
      SumZeros(s[1..]);
    }
  }

  lemma MarkBound(rems: seq<int>, order: seq<nat>, k: nat, x: nat)
    requires IsOrder(order, rems) && k <= |order| && x < |rems|
    requires forall i :: k <= i < |order| ==> rems[order[i]] == 0
    ensures x in order[..k] || rems[x] == 0
  {
    assert x in order;
    var i :| 0 <= i < |order| && order[i] == x;
    assert i < k ==> order[..k][i] == x;
  }

  // One for each of the first `k` in the order, zero for the others.
  function Marks(n: nat, order: seq<nat>, k: nat): (m: seq<int>)
    requires k <= |order|
    ensures |m| == n
  {
    Bumped(seq(n, _ => 0), order, k)
  }

  lemma MarksAddUp(rems: seq<int>, order: seq<nat>, k: nat)
    requires IsOrder(order, rems) && k <= |order|
    ensures Sum(Marks(|rems|, order, k)) == k
  {
    var zeros: seq<int> := seq(|rems|, _ => 0);
    SumZeros(zeros);
    BumpedSum(zeros, order, k);
  }

  lemma MarksDominate(rems: seq<int>, order: seq<nat>, k: nat, c: nat)
    requires IsOrder(order, rems) && k <= |order|
    requires forall i :: 0 <= i < |rems| ==> rems[i] <= c
    requires forall i :: k <= i < |order| ==> rems[order[i]] == 0
    ensures Dominated(rems, Marks(|rems|, order, k), c)
  {
    forall x: nat | x < |rems|
      ensures x in order[..k] || rems[x] == 0
    {
      MarkBound(rems, order, k, x);
    }
  }

  // Remainders that are zero outside the first `k` places of the order add up to little.
  lemma RemaindersBelow(rems: seq<int>, order: seq<nat>, k: nat, c: nat)
    requires IsOrder(order, rems) && k <= |order|
    requires forall i :: 0 <= i < |rems| ==> rems[i] <= c
    requires forall i :: k <= i < |order| ==> rems[order[i]] == 0
    ensures Sum(rems) <= c * k
  {
    MarksAddUp(rems, order, k);
    MarksDominate(rems, order, k, c);
    SumDominated(rems, Marks(|rems|, order, k), c);
  }

  lemma MulMonotone(c: nat, a: int, b: int)
    requires a <= b
    ensures c * a <= c * b
  {
  }

  lemma ScaledLess(whole: nat, a: int, b: nat, sum: int)
    requires whole > 0 && whole * a == sum && sum <= (whole - 1) * b
    ensures a < b || (a <= 0 && b == 0)
  {
    Distribute(b, whole, -1);
    if a >= b {
      MulMonotone(whole, b, a);
    }
  }

  lemma RemaindersFit(weights: seq<nat>, total: nat)
    ensures forall i :: 0 <= i < |weights| ==> 0 <= Remainders(weights, total)[i] < Whole(weights)
  {
    forall i | 0 <= i < |weights|
      ensures 0 <= Remainders(weights, total)[i] < Whole(weights)
    {
      DivMod(total * weights[i], Whole(weights));
    }
  }

  lemma LeftoverScaled(weights: seq<nat>, total: nat)
    requires Sum(weights) > 0
    ensures Whole(weights) * Leftover(weights, total) == Sum(Remainders(weights, total)) >= 0
  {
    var whole, floors := Whole(weights), Floors(weights, total);
    SumScaled(weights, total, whole, floors, Remainders(weights, total));
    Distribute(whole, total, -Sum(floors));
  }

  lemma NotNegative(whole: nat, x: int)
    requires whole > 0 && whole * x >= 0
    ensures x >= 0
  {
  }

  lemma LeftoverBelow(weights: seq<nat>, total: nat)
    requires Sum(weights) > 0
    ensures 0 <= Leftover(weights, total) < |weights|
  {
    var whole, rems, left := Whole(weights), Remainders(weights, total), Leftover(weights, total);
    LeftoverScaled(weights, total);
    OrderIsPermutation(rems);
    RemaindersFit(weights, total);
    RemaindersBelow(rems, ByRemainder(rems), |rems|, whole - 1);
    ScaledLess(whole, left, |rems|, Sum(rems));
    NotNegative(whole, left);
  }

  lemma NobodyTyped(weights: seq<nat>, total: nat)
    ensures Sum(weights) >= 0
    ensures Sum(weights) == 0 ==> Leftover(weights, total) == total
  {
    SumScaled(weights, total, Whole(weights), Floors(weights, total), Remainders(weights, total));
  }

  /** The leftover is never negative and, as soon as anybody typed, smaller than the number of authors. */
  lemma LeftoverIsSmall(weights: seq<nat>, total: nat)
    ensures 0 <= Leftover(weights, total)
    ensures Sum(weights) > 0 ==> Leftover(weights, total) < |weights|
    ensures Sum(weights) == 0 ==> Leftover(weights, total) == total
    ensures Sum(weights) >= 0
  {
    NobodyTyped(weights, total);
    if Sum(weights) > 0 {
      LeftoverBelow(weights, total);
    }
  }

  /** The total is shared exactly precisely when somebody typed something or there are enough
      authors to take one each; a window's weights are never all zero. */
  lemma SharesAreExact(weights: seq<nat>, total: nat)
    ensures Sum(SharesOf(weights, total)) == total <==> Sum(weights) > 0 || total <= |weights|
  {
    var rems := Remainders(weights, total);
    OrderIsPermutation(rems);
    LeftoverIsSmall(weights, total);
    BumpedSum(Floors(weights, total), ByRemainder(rems), Capped(Leftover(weights, total), |weights|));
  }

  /** Two authors of weight zero cannot take three lines. */
  lemma SharesCanFallShort() returns (weights: seq<nat>, total: nat)
    ensures |weights| == 2 && total == 3 && Sum(SharesOf(weights, total)) != total
  {
    weights, total := [0, 0], 3;
    assert weights[1..] == [0] && weights[1..][1..] == [];
    assert Sum(weights) == 0;
    SharesAreExact(weights, total);
  }

  lemma ZeroFromThere(rems: seq<int>, order: seq<nat>, k: nat)
    requires IsOrder(order, rems) && k < |order| && rems[order[k]] == 0
    requires forall i :: 0 <= i < |rems| ==> 0 <= rems[i]
    ensures forall i :: k <= i < |order| ==> rems[order[i]] == 0
  {
    forall i | k <= i < |order|
      ensures rems[order[i]] == 0
    {
      assert KeyOf(rems, order[k]) >= KeyOf(rems, order[i]);
    }
  }

  // Whoever gets one more had a fractional part.
  lemma BumpedHasRemainder(weights: seq<nat>, total: nat, k: nat)
    requires Sum(weights) > 0 && k < Leftover(weights, total) && k < |weights|
    ensures var rems := Remainders(weights, total);
            IsOrder(ByRemainder(rems), rems) && rems[ByRemainder(rems)[k]] > 0
  {
    var rems := Remainders(weights, total);
    var order := ByRemainder(rems);
    OrderIsPermutation(rems);
    RemaindersFit(weights, total);
    if rems[order[k]] == 0 {
      ZeroFromThere(rems, order, k);
      LeftoverScaled(weights, total);
      RemaindersBelow(rems, order, k, Whole(weights) - 1);
      ScaledLess(Whole(weights), Leftover(weights, total), k, Sum(rems));
    }
  }

  // The numerator of an author's exact proportion of the total.
  function Scaled(total: nat, weight: nat): nat {
    total * weight
  }

  // `x / whole` rounded down, or up if it is no whole number.
  predicate Rounded(x: nat, whole: nat, share: int)
    requires whole > 0
  {
    share == x / whole || (share == x / whole + 1 && x % whole > 0)
  }

  // Less than one away from `x / whole`.
  predicate Fair(x: nat, whole: int, share: int) {
    share >= 0 && -whole < share * whole - x < whole
  }

  lemma FairShare(x: nat, whole: nat, share: int)
    requires whole > 0 && Rounded(x, whole, share)
    ensures Fair(x, whole, share)
  {
    DivMod(x, whole);
    Distribute(whole, x / whole, 1);
  }

  lemma ShareOf(weights: seq<nat>, total: nat, i: nat)
    requires i < |weights| && Sum(weights) > 0
    ensures Rounded(Scaled(total, weights[i]), Sum(weights), SharesOf(weights, total)[i])
  {
    var rems := Remainders(weights, total);
    var order, n := ByRemainder(rems), Capped(Leftover(weights, total), |weights|);
    OrderIsPermutation(rems);
    if i in order[..n] {
      var k :| 0 <= k < n && order[k] == i;
      BumpedHasRemainder(weights, total, k);
    }
  }

  /** Each share is less than one away from its exact proportion `total * w / whole`. */
  lemma SharesAreFair(weights: seq<nat>, total: nat, i: nat)
    requires i < |weights| && Sum(weights) > 0
    ensures Fair(Scaled(total, weights[i]), Sum(weights), SharesOf(weights, total)[i])
  {
    ShareOf(weights, total, i);
    FairShare(Scaled(total, weights[i]), Sum(weights), SharesOf(weights, total)[i]);
  }

  /** `_largest_remainder`: the shares, with the leftover added in place. */
  method LargestRemainder(weights: seq<nat>, total: nat) returns (shares: array<int>)
    ensures fresh(shares) && shares[..] == SharesOf(weights, total)
  {
    var whole, floors, rems := Whole(weights), Floors(weights, total), Remainders(weights, total);
    var leftover := total - Sum(floors);
    var order := ByRemainder(rems);
    OrderIsPermutation(rems);
    shares := new int[|weights|](i requires 0 <= i < |weights| => floors[i]);
    for k := 0 to Capped(leftover, |weights|)
      invariant shares[..] == Bumped(floors, order, k)
    {
      assert order[..k + 1] == order[..k] + [order[k]];
      assert order[k] !in order[..k];
      shares[order[k]] := shares[order[k]] + 1;
    }
  }
}
