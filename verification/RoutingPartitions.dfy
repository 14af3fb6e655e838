/** Splitting a list over a number of columns. */
module RoutingPartitions {
  function Min(a: int, b: int): int { if a < b then a else b }

  function Max(a: int, b: int): int { if a < b then b else a }

  /** The number of columns: at least one, and no more than there are items. */
  function Slots(length: nat, count: int): (slots: nat)
    ensures slots >= 1 && (length > 0 ==> slots <= length)
  {
    Max(1, Min(if length == 0 then 1 else length, if count == 0 then 1 else count))
  }

  function Concat<T>(parts: seq<seq<T>>): seq<T> {
    if parts == [] then [] else Concat(parts[..|parts| - 1]) + parts[|parts| - 1]
  }

  function CeilingOf(a: nat, b: nat): (c: nat)
    requires b > 0
  {
    (a + b - 1) / b
  }

  /** The quotient is the one integer that leaves a remainder in range. */
  lemma QuotientIs(a: nat, b: nat, q: nat)
    requires b > 0 && b * q <= a < b * q + b
    ensures a / b == q
  {
    var d := a / b;
    assert a == b * d + a % b;
    if d < q {
      MultiplyGrows(b, d, q);
    } else if q < d {
      MultiplyGrows(b, q, d);
    }
  }

  lemma {:induction false} MultiplyGrows(b: nat, x: nat, y: nat)
    requires x < y
    ensures b * x + b <= b * y
    decreases y
  {
    assert b * y == b * (y - 1) + b;
    if x < y - 1 { MultiplyGrows(b, x, y - 1); }
  }

  /** With `left` columns to fill and `extra` of them one larger, the next one takes the ceiling. */
  lemma NextShare(left: nat, q: nat, extra: nat)
    requires extra < left || (extra == 0 && left > 0)
    ensures CeilingOf(left * q + extra, left) == q + (if extra > 0 then 1 else 0)
  {
    if extra > 0 {
      assert left * (q + 1) == left * q + left;
      QuotientIs(left * q + extra + left - 1, left, q + 1);
    } else {
      QuotientIs(left * q + left - 1, left, q);
    }
  }

  /** What is left over to share when `index` columns are filled. */
  predicate Sharing(remaining: nat, slots: nat, index: nat, q: nat, r: nat) {
    index <= slots && r < slots && remaining == (slots - index) * q + Max(0, r - index)
  }

  lemma OneMoreShare(remaining: nat, slots: nat, index: nat, q: nat, r: nat)
    requires Sharing(remaining, slots, index, q, r) && index < slots
    ensures CeilingOf(remaining, slots - index) == q + (if index < r then 1 else 0) <= remaining
    ensures Sharing(remaining - CeilingOf(remaining, slots - index), slots, index + 1, q, r)
  {
    var left: nat := slots - index;
    NextShare(left, q, Max(0, r - index));
    assert left * q == (left - 1) * q + q;
    NoLessThanZero(left - 1, q);
  }

  lemma NoLessThanZero(a: nat, b: nat)
    ensures a * b >= 0
  {
  }

  function Share(n: nat, slots: nat, i: nat): nat
    requires slots > 0
  {
    n / slots + if i < n % slots then 1 else 0
  }

  lemma SharesAreEven(n: nat, slots: nat)
    requires slots > 0
    ensures forall i: nat, j: nat :: i < j < slots ==>
      Share(n, slots, j) <= Share(n, slots, i) <= Share(n, slots, j) + 1
    ensures slots <= n ==> forall i: nat :: i < slots ==> Share(n, slots, i) >= 1
  {
    if slots <= n {
      assert n / slots >= 1 by { QuotientPositive(n, slots); }
    }
  }

  lemma QuotientPositive(n: nat, slots: nat)
    requires 1 <= slots <= n
    ensures n / slots >= 1
  {
    assert n == slots * (n / slots) + n % slots;
  }

  lemma StartSharing(n: nat, slots: nat)
    requires slots > 0
    ensures Sharing(n, slots, 0, n / slots, n % slots)
  {
  }

  /** Cuts the list into columns whose sizes are as equal as they can be, the larger ones first. */
  method BalancedPartitions<T>(items: seq<T>, count: int) returns (parts: seq<seq<T>>)
    ensures |parts| == (if count >= 1 && |items| >= 1 then Min(|items|, count) else 1)
    ensures Concat(parts) == items
    ensures forall i :: 0 <= i < |parts| ==> |parts[i]| == Share(|items|, |parts|, i)
    ensures forall i, j :: 0 <= i < j < |parts| ==> |parts[j]| <= |parts[i]| <= |parts[j]| + 1
    ensures items != [] ==> forall i :: 0 <= i < |parts| ==> parts[i] != []
  {
    hide Sharing, CeilingOf, Share;
    parts := [];
    var n: nat := |items|;
    var slots := Slots(n, count);
    var cursor: nat := 0;
    StartSharing(n, slots);
    for index := 0 to slots
      invariant |parts| == index && cursor <= n && Sharing(n - cursor, slots, index, n / slots, n % slots)
      invariant Concat(parts) == items[..cursor]
      invariant forall i: nat :: i < index ==> |parts[i]| == Share(n, slots, i)
    {
      OneMoreShare(n - cursor, slots, index, n / slots, n % slots);
      var size := CeilingOf(n - cursor, slots - index);
      ShareIs(n, slots, index);
      var part := items[cursor..cursor + size];
      assert (parts + [part])[..index] == parts;
      assert items[..cursor + size] == items[..cursor] + part;
      parts := parts + [part];
      cursor := cursor + size;
    }
    NothingLeft(n - cursor, slots, n / slots, n % slots);
    assert items[..cursor] == items;
    SharesAreEven(n, slots);
  }

  lemma ShareIs(n: nat, slots: nat, i: nat)
    requires slots > 0
    ensures Share(n, slots, i) == n / slots + if i < n % slots then 1 else 0
  {
  }

  lemma NothingLeft(remaining: nat, slots: nat, q: nat, r: nat)
    requires Sharing(remaining, slots, slots, q, r)
    ensures remaining == 0
  {
  }
}
