/** The bounded, newest-first buffer of samples that the streaming screen displays. */
module SampleBuffer {

  /** How many samples the buffer keeps. */
  const Capacity: nat := 100

  /** One notification as displayed; the capture time is an opaque clock reading. */
  datatype Sample = Sample(characteristicUUID: string, serviceUUID: string, rawValue: string, timestamp: nat)

  function Min(a: nat, b: nat): nat
  {
    if a <= b then a else b
  }

  /** JavaScript's `s.slice(0, n)`, which stops at the end of a shorter array. */
  function SliceTo<T>(s: seq<T>, n: nat): (r: seq<T>)
    ensures r <= s && |r| == Min(|s|, n)
  {
    if |s| <= n then s else s[..n]
  }

  /** The buffer update of one notification: the new sample goes in front and at
      most `Capacity - 1` earlier samples are kept, the oldest dropped first. */
  function Prepend(buffer: seq<Sample>, s: Sample): (r: seq<Sample>)
    ensures 0 < |r| <= Capacity && r[0] == s
    ensures |r| == Min(|buffer| + 1, Capacity)
    ensures r[1..] <= buffer
  {
    [s] + SliceTo(buffer, Capacity - 1)
  }

  /** The buffer after the notifications `samples` arrived, in that order. */
  function PrependAll(buffer: seq<Sample>, samples: seq<Sample>): seq<Sample>
    decreases |samples|
  {
    if samples == [] then buffer else PrependAll(Prepend(buffer, samples[0]), samples[1..])
  }

  function Reversed<T>(s: seq<T>): (r: seq<T>)
    ensures |r| == |s|
  {
    if s == [] then [] else Reversed(s[1..]) + [s[0]]
  }

  lemma {:induction false} ReversedAt<T>(s: seq<T>, k: nat)
    requires k < |s|
    ensures Reversed(s)[k] == s[|s| - 1 - k]
  {
    if k < |s| - 1 {
      ReversedAt(s[1..], k);
    }
  }

  lemma SliceOfPrefixed(x: seq<Sample>, y: seq<Sample>, n: nat)
    ensures SliceTo(x + SliceTo(y, n), n) == SliceTo(x + y, n)
  {
    if |y| > n {
      if |x| >= n {
        assert (x + y[..n])[..n] == x[..n] == (x + y)[..n];
      } else {
        assert (x + y[..n])[..n] == x + y[..n - |x|] == (x + y)[..n];
      }
    }
  }

  /** One update is the newest `Capacity` samples of the buffer with `s` in front. */
  lemma PrependIsSlice(buffer: seq<Sample>, s: Sample)
    ensures Prepend(buffer, s) == SliceTo([s] + buffer, Capacity)
  {
    if |buffer| > Capacity - 1 {
      assert [s] + buffer[..Capacity - 1] == ([s] + buffer)[..Capacity];
    }
  }

  /** Independent description of the buffer: after any run of notifications it
      holds the newest `Capacity` samples of the whole history, newest first. */
  lemma {:induction false} PrependAllNewestFirst(buffer: seq<Sample>, samples: seq<Sample>)
    requires |buffer| <= Capacity
    ensures PrependAll(buffer, samples) == SliceTo(Reversed(samples) + buffer, Capacity)
    decreases |samples|
  {
    if samples == [] {
      assert Reversed(samples) + buffer == buffer;
    } else {
      var s, rest := samples[0], samples[1..];
      PrependAllNewestFirst(Prepend(buffer, s), rest);
      PrependIsSlice(buffer, s);
      SliceOfPrefixed(Reversed(rest), [s] + buffer, Capacity);
      assert Reversed(rest) + ([s] + buffer) == Reversed(samples) + buffer;
    }
  }

  /** Starting from the empty buffer of a new stream, `n` notifications leave
      `Min(n, Capacity)` samples, the newest at index 0. */
  lemma NotificationsFromEmpty(samples: seq<Sample>)
    ensures |PrependAll([], samples)| == Min(|samples|, Capacity)
    ensures forall k :: 0 <= k < |PrependAll([], samples)| ==>
      PrependAll([], samples)[k] == samples[|samples| - 1 - k]
  {
    PrependAllNewestFirst([], samples);
    assert Reversed(samples) + [] == Reversed(samples);
    forall k | 0 <= k < |PrependAll([], samples)|
      ensures PrependAll([], samples)[k] == samples[|samples| - 1 - k]
    {
      ReversedAt(samples, k);
    }
  }
}
