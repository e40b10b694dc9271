/**
 * The two helpers of src/core/dsp.rs that the splitter uses: the
 * interleaved-to-planar reshaping `to_planar_stereo` and the length of the
 * window `hann2`. Samples are a type parameter: the reshaping only copies.
 */
module Dsp {

  /** A planar stereo frame `[left, right]`. */
  datatype Frame<T> = Frame(left: T, right: T)

  /** Reference definition of the stereo branch: consecutive pairs, a
      trailing odd sample left over. */
  function Pairs<T>(x: seq<T>): seq<Frame<T>>
  {
    if |x| < 2 then [] else [Frame(x[0], x[1])] + Pairs(x[2..])
  }

  /** Reference definition of the mono branch: every sample on both channels. */
  function Duplicated<T>(x: seq<T>): (r: seq<Frame<T>>)
    ensures |r| == |x|
    ensures forall i :: 0 <= i < |x| ==> r[i] == Frame(x[i], x[i])
  {
    seq(|x|, i requires 0 <= i < |x| => Frame(x[i], x[i]))
  }

  /** What `to_planar_stereo(interleaved, channels)` returns. */
  function Planar<T>(x: seq<T>, channels: nat): seq<Frame<T>>
  {
    if channels == 1 then Duplicated(x) else Pairs(x)
  }

  lemma {:induction false} PairsAt<T>(x: seq<T>, i: nat)
    ensures |Pairs(x)| == |x| / 2
    ensures i < |x| / 2 ==> Pairs(x)[i] == Frame(x[2 * i], x[2 * i + 1])
  {
    if |x| >= 2 {
      PairsAt(x[2..], if i == 0 then 0 else i - 1);
    }
  }

  /** `to_planar_stereo`: the mono branch maps, the other branch walks the
      buffer two samples at a time while a whole pair is left. */
  method ToPlanarStereo<T>(interleaved: seq<T>, channels: nat) returns (out: seq<Frame<T>>)
    ensures channels == 1 ==> |out| == |interleaved|
    ensures channels == 1 ==> forall i :: 0 <= i < |out| ==> out[i] == Frame(interleaved[i], interleaved[i])
    ensures channels != 1 ==> |out| == |interleaved| / 2
    ensures channels != 1 ==> forall i :: 0 <= i < |out| ==> out[i] == Frame(interleaved[2 * i], interleaved[2 * i + 1])
    ensures out == Planar(interleaved, channels)
  {
    if channels == 1 {
      out := Duplicated(interleaved);
      return;
    }
    out := [];
    var i := 0;
    while i + 1 < |interleaved|
      invariant i == 2 * |out| && i <= |interleaved|
      invariant forall k :: 0 <= k < |out| ==> out[k] == Frame(interleaved[2 * k], interleaved[2 * k + 1])
    {
      out := out + [Frame(interleaved[i], interleaved[i + 1])];
      i := i + 2;
    }
    PairsAt(interleaved, 0);
    forall k | 0 <= k < |out| ensures out[k] == Pairs(interleaved)[k] {
      PairsAt(interleaved, k);
    }
  }

  /** Every channel count other than 1 (0, 2, or more than 2) is read as stereo. */
  lemma NonMonoCountsAgree<T>(x: seq<T>, c1: nat, c2: nat)
    requires c1 != 1 && c2 != 1
    ensures Planar(x, c1) == Planar(x, c2) == Pairs(x)
  {
  }

  /** A trailing odd sample is dropped: it changes nothing in the output. */
  lemma {:induction false} TrailingOddSampleDropped<T>(x: seq<T>, v: T)
    requires |x| % 2 == 0
    ensures Pairs(x + [v]) == Pairs(x)
  {
    if |x| >= 2 {
      assert (x + [v])[2..] == x[2..] + [v];
      TrailingOddSampleDropped(x[2..], v);
    }
  }

  /** Appending a whole pair appends one frame. */
  lemma {:induction false} PairsAppend<T>(x: seq<T>, a: T, b: T)
    requires |x| % 2 == 0
    ensures Pairs(x + [a, b]) == Pairs(x) + [Frame(a, b)]
  {
    if |x| >= 2 {
      assert (x + [a, b])[2..] == x[2..] + [a, b];
      PairsAppend(x[2..], a, b);
    } else {
      assert |x| == 0 && x + [a, b] == [a, b];
    }
  }

  /** `hann2(n)`: n window weights; the weight of index i is `weight(i, n)`,
      left abstract (a squared sine in the source). */
  function Hann2(n: nat, weight: (nat, nat) -> real): (w: seq<real>)
    ensures |w| == n
  {
    seq(n, i requires 0 <= i < n => weight(i, n))
  }
}
