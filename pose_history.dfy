// The bounded pose history both selectors keep (UpdateViewport): newest pose
// first, at most mSize entries, the oldest evicted when a push overflows.

module PoseHistory {

  const UINT32_RANGE: int := 0x1_0000_0000

  predicate IsInt32(x: int) {
    -0x8000_0000 <= x < 0x8000_0000
  }

  /** The eviction test compares against (uint32_t)mSize, where mSize is an
      int: a negative size wraps to a very large capacity. */
  function Capacity(size: int): (c: nat)
    requires IsInt32(size)
    ensures 0 <= size ==> c == size
    ensures size < 0 ==> c == UINT32_RANGE + size && c >= 0x8000_0000
  {
    size % UINT32_RANGE
  }

  /** push_front, then one pop_back when the size exceeds the capacity. */
  function Push<T>(h: seq<T>, x: T, cap: nat): (r: seq<T>)
    ensures |h| <= cap ==> |r| <= cap
    ensures |r| == |h| + 1 || |r| == |h|
    ensures r == ([x] + h)[..|r|]
    ensures |h| < cap ==> r == [x] + h
    ensures 0 < cap && |h| <= cap ==> r[0] == x && r[1..] == h[..|r| - 1]
  {
    var pushed := [x] + h;
    if |pushed| > cap then pushed[..|pushed| - 1] else pushed
  }

  /** The history after pushing xs[0], xs[1], ... in turn. */
  function PushAll<T>(h: seq<T>, xs: seq<T>, cap: nat): seq<T>
    decreases |xs|
  {
    if xs == [] then h else Push(PushAll(h, xs[..|xs| - 1], cap), xs[|xs| - 1], cap)
  }

  /** xs newest first: the last pushed element at the front. */
  function Reverse<T>(xs: seq<T>): (r: seq<T>)
    ensures |r| == |xs|
    decreases |xs|
  {
    if xs == [] then [] else [xs[|xs| - 1]] + Reverse(xs[..|xs| - 1])
  }

  function Min(a: int, b: int): int {
    if a <= b then a else b
  }

  /** However many poses arrive, the history never holds more than its
      capacity, and it is exactly the most recent `cap` of them, newest first. */
  lemma {:induction false} PushAllWindow<T>(h: seq<T>, xs: seq<T>, cap: nat)
    requires |h| <= cap
    ensures |PushAll(h, xs, cap)| <= cap
    ensures PushAll(h, xs, cap) == (Reverse(xs) + h)[..Min(cap, |xs| + |h|)]
    decreases |xs|
  {
    if xs != [] {
      var front := xs[..|xs| - 1];
      var x := xs[|xs| - 1];
      PushAllWindow(h, front, cap);
      var w := PushAll(h, front, cap);
      var m := Min(cap, |front| + |h|);
      assert w == (Reverse(front) + h)[..m];
      assert Reverse(xs) == [x] + Reverse(front);
      var r := Push(w, x, cap);
      assert r == ([x] + w)[..|r|];
      assert |r| == Min(cap, |xs| + |h|);
      assert [x] + w == ([x] + Reverse(front) + h)[..m + 1];
    }
  }
}
