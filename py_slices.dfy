/** Python's slicing of lists and tuples with step 1: `s[i:j]` and the list
    slice assignment `a[i:j] = b`, with negative indices and clamping. */
module PySlices {

  /** The position a slice bound `i` denotes in a sequence of length `n`:
      a negative bound counts from the end, and the result is clamped to `[0, n]`. */
  function Bound(i: int, n: nat): (k: nat)
    ensures k <= n
    ensures 0 <= i ==> k == if i <= n then i else n
    ensures i < 0 ==> k == if -i <= n then n + i else 0
  {
    if i < 0 then (if i + n < 0 then 0 else i + n)
    else if i > n then n else i
  }

  /** `s[i:j]` */
  function Slice<T>(s: seq<T>, i: int, j: int): (r: seq<T>)
    ensures Bound(i, |s|) + |r| <= |s|
    ensures |r| == if Bound(i, |s|) <= Bound(j, |s|) then Bound(j, |s|) - Bound(i, |s|) else 0
    ensures forall k :: 0 <= k < |r| ==> r[k] == s[Bound(i, |s|) + k]
  {
    var lo, hi := Bound(i, |s|), Bound(j, |s|);
    if hi <= lo then [] else s[lo..hi]
  }

  /** The list `a` after the statement `a[i:j] = b`: the addressed run of `a`
      (empty when the upper bound falls before the lower) is replaced by `b`. */
  function SliceAssign<T>(a: seq<T>, i: int, j: int, b: seq<T>): (r: seq<T>)
    ensures var lo := Bound(i, |a|);
            var hi := if Bound(j, |a|) < lo then lo else Bound(j, |a|);
            |r| == |a| - (hi - lo) + |b| &&
            r[..lo] == a[..lo] && r[lo..lo + |b|] == b && r[lo + |b|..] == a[hi..]
  {
    var lo := Bound(i, |a|);
    var hi := if Bound(j, |a|) < lo then lo else Bound(j, |a|);
    a[..lo] + b + a[hi..]
  }

  /** Within range, a Python slice is the mathematical subsequence. */
  lemma SliceInRange<T>(s: seq<T>, i: int, j: int)
    requires 0 <= i <= j <= |s|
    ensures Slice(s, i, j) == s[i..j]
  {
  }

  /** `s[:-td]` for `td > 0` drops the last `td` elements (all of them when `td >= |s|`). */
  lemma SliceDropsLast<T>(s: seq<T>, td: int)
    requires td > 0
    ensures Slice(s, 0, -td) == if td <= |s| then s[..|s| - td] else []
  {
  }

  /** `to[start:end] = from[start:end]`: the layer-range copy `_copy_model_weights`
      performs on weights, and the copy it intends for optimizer slots. */
  function CopyRange<T>(from: seq<T>, to: seq<T>, start: int, end: int): (r: seq<T>)
    ensures var lo := Bound(start, |to|);
            var shared := Slice(from, start, end);
            lo + |shared| <= |r| && r[..lo] == to[..lo] && r[lo..lo + |shared|] == shared
    ensures var hi := if Bound(end, |to|) < Bound(start, |to|) then Bound(start, |to|) else Bound(end, |to|);
            |r| == Bound(start, |to|) + |Slice(from, start, end)| + (|to| - hi) &&
            r[|r| - (|to| - hi)..] == to[hi..]
  {
    SliceAssign(to, start, end, Slice(from, start, end))
  }

  /** When both sequences hold at least `end` blocks, the copy keeps the length
      of `to`, takes blocks `[start, end)` from `from` and keeps every other block. */
  lemma CopyRangeReplacesOnlyRange<T>(from: seq<T>, to: seq<T>, start: int, end: int)
    requires 0 <= start <= end
    requires end <= |from| && end <= |to|
    ensures |CopyRange(from, to, start, end)| == |to|
    ensures forall k :: 0 <= k < |to| ==>
      CopyRange(from, to, start, end)[k] == if start <= k < end then from[k] else to[k]
  {
    var r := CopyRange(from, to, start, end);
    assert Slice(from, start, end) == from[start..end];
    assert r == to[..start] + from[start..end] + to[end..];
  }

  /** A copy of the leading range `[0, end)` leaves `to` starting with the first
      `min(end, |from|)` blocks of `from`, whatever the lengths, and keeps the
      blocks of `to` from `end` on. */
  lemma CopyPrefix<T>(from: seq<T>, to: seq<T>, end: int)
    requires end >= 0
    ensures var k := if end <= |from| then end else |from|;
            var h := if end <= |to| then end else |to|;
            CopyRange(from, to, 0, end) == from[..k] + to[h..]
  {
  }
}
