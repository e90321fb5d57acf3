/** The bounded reading history both sensor handlers keep: each accepted reading
    is pushed, and once the array holds more than 24 entries it is cut back to
    its newest 24 (`history.slice(-24)`), so the oldest entry is evicted first. */
module History {

  const CAPACITY: nat := 24

  function Min(a: int, b: int): int
  {
    if a <= b then a else b
  }

  /** Reference definition: the last `min(|s|, n)` elements of `s`, in order. */
  function Last<T>(s: seq<T>, n: nat): seq<T>
  {
    s[|s| - Min(|s|, n)..]
  }

  /** `if (h.length > 24) h = h.slice(-24)`. */
  function Trim<T>(s: seq<T>): (r: seq<T>)
    ensures |r| == Min(|s|, CAPACITY)
    ensures r == Last(s, CAPACITY)
  {
    if |s| > CAPACITY then s[|s| - CAPACITY..] else s
  }

  /** `h.push(x)` followed by the trim. */
  function Push<T>(h: seq<T>, x: T): (r: seq<T>)
    ensures |r| == Min(|h| + 1, CAPACITY)
    ensures r[|r| - 1] == x
    ensures |h| < CAPACITY ==> r == h + [x]
    ensures |h| >= CAPACITY ==> r == h[|h| - CAPACITY + 1..] + [x]
  {
    var r := Trim(h + [x]);
    assert |h| >= CAPACITY ==> r == h[|h| - CAPACITY + 1..] + [x];
    r
  }

  /** The history after the readings `xs` have been pushed, in order, onto `h`. */
  function Replay<T>(h: seq<T>, xs: seq<T>): seq<T>
    decreases |xs|
  {
    if xs == [] then h else Push(Replay(h, xs[..|xs| - 1]), xs[|xs| - 1])
  }

  /** A suffix of `w` that is at least as long as the newest `n` entries of `w`
      has the same newest `n` entries. */
  lemma SuffixKeepsLast<T>(u: seq<T>, w: seq<T>, n: nat)
    requires |u| <= |w| && u == w[|w| - |u|..]
    requires |u| >= Min(|w|, n)
    ensures Last(u, n) == Last(w, n)
  {
    var k := Min(|w|, n);
    assert Min(|u|, n) == k;
    forall i | 0 <= i < k
      ensures Last(u, n)[i] == Last(w, n)[i]
    {
      assert Last(u, n)[i] == u[|u| - k + i];
      assert u[|u| - k + i] == w[|w| - |u| + (|u| - k + i)];
    }
  }

  /** Trimming before appending more readings does not change what a later trim keeps. */
  lemma {:induction false} LastOfLast<T>(s: seq<T>, t: seq<T>, n: nat)
    ensures Last(Last(s, n) + t, n) == Last(s + t, n)
  {
    var u := Last(s, n) + t;
    var w := s + t;
    assert u == w[|w| - |u|..] by {
      forall i | 0 <= i < |u|
        ensures u[i] == w[|w| - |u| + i]
      {
        if i < |Last(s, n)| {
          assert u[i] == s[|s| - Min(|s|, n) + i];
        } else {
          assert u[i] == t[i - |Last(s, n)|];
        }
      }
    }
    SuffixKeepsLast(u, w, n);
  }

  /** Starting from a history within the cap, the history after any run of
      accepted readings is the newest (at most 24) of all of them, in arrival order. */
  lemma {:induction false} ReplayKeepsNewest<T>(h: seq<T>, xs: seq<T>)
    requires |h| <= CAPACITY
    ensures Replay(h, xs) == Last(h + xs, CAPACITY)
    decreases |xs|
  {
    if xs == [] {
      assert h + xs == h;
    } else {
      var init, x := xs[..|xs| - 1], xs[|xs| - 1];
      ReplayKeepsNewest(h, init);
      LastOfLast(h + init, [x], CAPACITY);
      assert h + init + [x] == h + xs;
    }
  }

  /** The history never grows beyond the cap. */
  lemma {:induction false} ReplayBounded<T>(h: seq<T>, xs: seq<T>)
    requires |h| <= CAPACITY
    ensures |Replay(h, xs)| <= CAPACITY
    ensures |Replay(h, xs)| == Min(|h| + |xs|, CAPACITY)
  {
    ReplayKeepsNewest(h, xs);
  }

  /** After 25 readings into an empty history, the oldest entry kept is the second reading. */
  lemma {:induction false} TwentyFiveReadings<T>(xs: seq<T>)
    requires |xs| == 25
    ensures |Replay([], xs)| == CAPACITY
    ensures Replay([], xs)[0] == xs[1]
    ensures Replay([], xs) == xs[1..]
  {
    var kept := Replay([], xs);
    ReplayKeepsNewest([], xs);
    assert [] + xs == xs;
    assert Min(|xs|, CAPACITY) == 24;
    assert kept == xs[1..];
  }
}
