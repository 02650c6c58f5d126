/** The trimming rule shared by the log buffer and the recent-fix history: append the
    new element at the end, then, if the collection has grown beyond its capacity,
    remove the element at the front (one removal per append). */
module BoundedFifo {

  /** Append `x` to `s`, then drop the oldest element when the length exceeds `cap`. */
  function PushBounded<T>(s: seq<T>, x: T, cap: nat): (r: seq<T>)
    ensures |s| <= cap ==> |r| <= cap
    ensures |s| < cap ==> r == s + [x]
    ensures cap <= |s| && 0 < |s| ==> r == s[1..] + [x]
    ensures 0 < cap ==> 0 < |r| && r[|r| - 1] == x
  {
    var t := s + [x];
    if |t| > cap then t[1..] else t
  }

  /** Push every element of `xs`, in order. */
  function PushAll<T>(s: seq<T>, xs: seq<T>, cap: nat): seq<T>
    decreases |xs|
  {
    if xs == [] then s else PushAll(PushBounded(s, xs[0], cap), xs[1..], cap)
  }

  /** The last `n` elements of `t`, or all of `t` when it is shorter. */
  function Newest<T>(t: seq<T>, n: nat): (r: seq<T>)
    ensures |r| <= n && |r| <= |t|
    ensures |t| <= n ==> r == t
  {
    if |t| <= n then t else t[|t| - n..]
  }

  /** Keeping the newest elements of a prefix and then of the whole is the same as
      keeping the newest elements of the whole. */
  lemma NewestOfNewest<T>(a: seq<T>, b: seq<T>, n: nat)
    ensures Newest(Newest(a, n) + b, n) == Newest(a + b, n)
  {
    if |a| > n {
      var k := |a| - n;
      assert Newest(a, n) + b == (a + b)[k..];
      if |b| > 0 {
        assert (a + b)[k..][|(a + b)[k..]| - n..] == (a + b)[|a + b| - n..];
      }
    }
  }

  /** A single push keeps the newest `cap` elements of the extended sequence. */
  lemma PushIsNewest<T>(s: seq<T>, x: T, cap: nat)
    requires |s| <= cap
    ensures PushBounded(s, x, cap) == Newest(s + [x], cap)
  {
  }

  /** The buffer is a sliding window: starting within capacity, any run of pushes
      leaves exactly the newest `cap` elements of everything seen, in order. */
  lemma {:induction false} PushAllIsWindow<T>(s: seq<T>, xs: seq<T>, cap: nat)
    requires |s| <= cap
    ensures PushAll(s, xs, cap) == Newest(s + xs, cap)
    ensures |PushAll(s, xs, cap)| <= cap
    decreases |xs|
  {
    if xs == [] {
      assert s + xs == s;
    } else {
      var s' := PushBounded(s, xs[0], cap);
      PushIsNewest(s, xs[0], cap);
      PushAllIsWindow(s', xs[1..], cap);
      NewestOfNewest(s + [xs[0]], xs[1..], cap);
      assert s + [xs[0]] + xs[1..] == s + xs;
    }
  }
}
