// Types and small facts shared by the component models.

module Common {

  datatype Option<+T> = None | Some(value: T)

  /** Unsigned machine words. Arithmetic on them is written out modulo their range. */
  const U16_RANGE := 0x1_0000
  const U32_RANGE := 0x1_0000_0000

  type u16 = x: int | 0 <= x < 0x1_0000
  type u32 = x: int | 0 <= x < 0x1_0000_0000

  ghost predicate Distinct<T>(s: seq<T>) {
    forall i, j :: 0 <= i < j < |s| ==> s[i] != s[j]
  }

  /** Pigeonhole: distinct numbers drawn from a set are no more than the set has elements. */
  lemma {:induction false} DistinctFit(s: seq<int>, room: set<int>)
    requires Distinct(s)
    requires forall x :: x in s ==> x in room
    ensures |s| <= |room|
  {
    if s != [] {
      var last := s[|s| - 1];
      var rest := s[..|s| - 1];
      assert forall x :: x in rest ==> x in s && x != last;
      DistinctFit(rest, room - {last});
    }
  }

  /** The integers from lo up to, but not including, hi. */
  ghost function Interval(lo: int, hi: int): (r: set<int>)
    requires lo <= hi
    ensures forall x :: x in r <==> lo <= x < hi
    ensures |r| == hi - lo
    decreases hi - lo
  {
    if lo == hi then {} else Interval(lo, hi - 1) + {hi - 1}
  }

  // ---- remainders

  lemma RemainderIs(x: int, m: nat, q: int, r: int)
    requires m > 0 && x == m * q + r && 0 <= r < m
    ensures x % m == r
  {
    var d := x / m - q;
    assert m * d == r - x % m;
    assert d >= 1 ==> m * d >= m;
    assert d <= -1 ==> m * d <= 0 - m;
  }

  lemma AddMultiple(x: int, m: nat, k: int)
    requires m > 0
    ensures (x + m * k) % m == x % m
  {
    var q := x / m;
    assert x + m * k == m * (q + k) + x % m;
    RemainderIs(x + m * k, m, q + k, x % m);
  }

  /** Counting on by one may be done before or after the remainder is taken. */
  lemma MovesOn(x: int, m: nat)
    requires m > 1
    ensures (x % m + 1) % m == (x + 1) % m
  {
    var q, r := x / m, x % m;
    assert x + 1 == r + 1 + m * q;
    AddMultiple(r + 1, m, q);
  }
}
