/**
 * The window schedule of `split_file`: windows start at 0, hop, 2·hop, …
 * and the walk stops at the first start p with p + hop >= n.
 */
module Schedule {
  import opened Arith

  /** The starts visited from p on, p included. */
  function StartsFrom(p: nat, n: nat, hop: nat): (s: seq<nat>)
    requires p < n && hop > 0
    ensures |s| >= 1 && s[0] == p
    decreases n - p
  {
    if p + hop >= n then [p] else [p] + StartsFrom(p + hop, n, hop)
  }

  /** Every window start of a buffer of n frames. */
  function WindowStarts(n: nat, hop: nat): seq<nat>
    requires n > 0 && hop > 0
  {
    StartsFrom(0, n, hop)
  }

  /** Start k is p + k·hop. */
  lemma {:induction false} StartsFromOffsets(p: nat, n: nat, hop: nat)
    requires p < n && hop > 0
    ensures forall k: nat | k < |StartsFrom(p, n, hop)| :: StartsFrom(p, n, hop)[k] == p + Mul(k, hop)
    decreases n - p
  {
    if p + hop < n {
      StartsFromOffsets(p + hop, n, hop);
      var s := StartsFrom(p, n, hop);
      var rest := StartsFrom(p + hop, n, hop);
      assert s == [p] + rest;
      forall k: nat | 0 < k < |s| ensures s[k] == p + Mul(k, hop) {
        MulAdd(1, k - 1, hop);
        MulSmall(hop);
        assert s[k] == rest[k - 1];
      }
    }
  }

  /** Only the last start is followed by p + hop >= n; every start is
      inside the buffer. */
  lemma {:induction false} StartsFromStop(p: nat, n: nat, hop: nat)
    requires p < n && hop > 0
    ensures forall k: nat | k + 1 < |StartsFrom(p, n, hop)| :: StartsFrom(p, n, hop)[k] + hop < n
    ensures forall k: nat | k < |StartsFrom(p, n, hop)| :: StartsFrom(p, n, hop)[k] < n
    ensures var s := StartsFrom(p, n, hop); s[|s| - 1] + hop >= n
    decreases n - p
  {
    if p + hop < n {
      StartsFromStop(p + hop, n, hop);
      var s := StartsFrom(p, n, hop);
      var rest := StartsFrom(p + hop, n, hop);
      assert s == [p] + rest;
      assert forall k: nat | 0 < k < |s| :: s[k] == rest[k - 1];
    }
  }

  /** From start k the walk goes on to start k + 1 = start k + hop exactly
      when start k + hop is still inside the buffer. */
  lemma {:induction false} StartsFromNext(p: nat, n: nat, hop: nat, k: nat)
    requires p < n && hop > 0 && k < |StartsFrom(p, n, hop)|
    ensures k + 1 < |StartsFrom(p, n, hop)| <==> StartsFrom(p, n, hop)[k] + hop < n
    ensures k + 1 < |StartsFrom(p, n, hop)| ==> StartsFrom(p, n, hop)[k + 1] == StartsFrom(p, n, hop)[k] + hop
    decreases n - p
  {
    if k > 0 {
      StartsFromNext(p + hop, n, hop, k - 1);
    }
  }

  /** Starts are exactly the multiples of hop below the stopping point. */
  lemma StartsAreMultiples(n: nat, hop: nat)
    requires n > 0 && hop > 0
    ensures forall k: nat | k < |WindowStarts(n, hop)| :: WindowStarts(n, hop)[k] == k * hop
    ensures forall k: nat | k < |WindowStarts(n, hop)| :: WindowStarts(n, hop)[k] < n
    ensures forall k: nat | k + 1 < |WindowStarts(n, hop)| :: WindowStarts(n, hop)[k] + hop < n
    ensures var s := WindowStarts(n, hop); s[|s| - 1] + hop >= n
  {
    StartsFromOffsets(0, n, hop);
    StartsFromStop(0, n, hop);
    forall k: nat | k < |WindowStarts(n, hop)| ensures WindowStarts(n, hop)[k] == k * hop {
      MulIsProduct(k, hop);
    }
  }

  /** From p on, c windows are visited where (c-1)·hop < n - p <= c·hop. */
  lemma {:induction false} StartsFromCount(p: nat, n: nat, hop: nat)
    requires p < n && hop > 0
    ensures var c := |StartsFrom(p, n, hop)|; Mul(c - 1, hop) < n - p <= Mul(c, hop)
    decreases n - p
  {
    MulSmall(hop);
    if p + hop < n {
      StartsFromCount(p + hop, n, hop);
      var c := |StartsFrom(p + hop, n, hop)|;
      MulAdd(1, c - 1, hop);
      MulAdd(1, c, hop);
    }
  }

  /** Euclidean division in terms of `Mul`. */
  lemma DivMod(x: nat, d: nat)
    requires d > 0
    ensures x == Mul(x / d, d) + x % d && x % d < d
  {
    MulIsProduct(x / d, d);
  }

  /** A quotient is pinned down by the multiples around it. */
  lemma CeilingDivision(m: nat, hop: nat, c: nat)
    requires hop > 0 && c >= 1
    requires Mul(c - 1, hop) < m <= Mul(c, hop)
    ensures c == (m + hop - 1) / hop
  {
    var x: nat := m + hop - 1;
    var q: nat := x / hop;
    DivMod(x, hop);
    assert Mul(c, hop) == Mul(c - 1, hop) + hop;
    assert Mul(q + 1, hop) == Mul(q, hop) + hop;
    assert Mul(c + 1, hop) == Mul(c, hop) + hop;
    if q < c {
      MulMono(q + 1, c, hop);
    } else if q > c {
      MulMono(c + 1, q, hop);
    }
  }

  /** The walk always ends, after exactly ⌈n / hop⌉ windows. */
  lemma WindowCount(n: nat, hop: nat)
    requires n > 0 && hop > 0
    ensures |WindowStarts(n, hop)| == (n + hop - 1) / hop
  {
    StartsFromCount(0, n, hop);
    CeilingDivision(n, hop, |WindowStarts(n, hop)|);
  }

  /** Frame f lies in one of the windows starting at `starts`. */
  predicate Covered(starts: seq<nat>, win: nat, f: nat)
  {
    exists k: nat :: k < |starts| && starts[k] <= f < starts[k] + win
  }

  /** With hop <= win, every frame from p on lies in some window. */
  lemma {:induction false} StartsFromCover(p: nat, n: nat, hop: nat, win: nat, f: nat)
    requires p <= f < n && 0 < hop <= win
    ensures Covered(StartsFrom(p, n, hop), win, f)
    decreases n - p
  {
    var s := StartsFrom(p, n, hop);
    if f < p + hop {
      assert s[0] <= f < s[0] + win;
    } else {
      StartsFromCover(p + hop, n, hop, win, f);
      var rest := StartsFrom(p + hop, n, hop);
      var k: nat :| k < |rest| && rest[k] <= f < rest[k] + win;
      assert s[k + 1] == rest[k];
    }
  }

  /** Because hop <= win, the windows cover every frame of the buffer. */
  lemma WindowsCoverFrames(n: nat, hop: nat, win: nat)
    requires n > 0 && 0 < hop <= win
    ensures forall f: nat | f < n :: Covered(WindowStarts(n, hop), win, f)
  {
    forall f: nat | f < n ensures Covered(WindowStarts(n, hop), win, f) {
      StartsFromCover(0, n, hop, win, f);
    }
  }
}
