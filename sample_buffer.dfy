/**
 * The shared audio sample buffer: a double-ended queue with a maximum
 * length. The capture loop extends it at the back; once it is full every
 * new sample pushes the oldest one out at the front. The trainer removes
 * whole windows from the front, first in, first out.
 */
module SampleBuffers {
  import opened Wrappers

  /**
   * What a deque with `maxlen` = `capacity` holds after the stream `s` went
   * through it: the newest `capacity` elements, or all of `s` if it is shorter.
   */
  function KeepNewest(s: seq<real>, capacity: nat): (r: seq<real>)
    ensures |r| <= capacity && |r| <= |s|
    ensures s[|s| - |r|..] == r
    ensures |s| <= capacity ==> r == s
    ensures |s| > capacity ==> |r| == capacity
  {
    if |s| <= capacity then s else s[|s| - capacity..]
  }

  /**
   * One `append` on a full-length-bounded deque: the new sample goes to the
   * back and, if the deque was already full, the front sample is dropped.
   */
  function AppendBounded(s: seq<real>, x: real, capacity: nat): (r: seq<real>)
    requires |s| <= capacity
    ensures |r| == if |s| < capacity then |s| + 1 else capacity
    ensures capacity > 0 ==> r[|r| - 1] == x && r[..|r| - 1] == s[|s| + 1 - |r|..]
  {
    if |s| < capacity then s + [x] else (s + [x])[1..]
  }

  /**
   * Appending samples one at a time with drop-oldest is the same as keeping
   * the newest `capacity` samples of the whole stream: the step that makes
   * `Extend` agree with `KeepNewest`.
   */
  lemma KeepNewestSnoc(s: seq<real>, x: real, capacity: nat)
    ensures KeepNewest(s + [x], capacity) == AppendBounded(KeepNewest(s, capacity), x, capacity)
  {
  }

  /** Consuming one more sample of `block` after the samples `a`. */
  lemma PrefixSnoc(a: seq<real>, block: seq<real>, i: nat)
    requires i < |block|
    ensures a + block[..i + 1] == (a + block[..i]) + [block[i]]
  {
    assert block[..i + 1] == block[..i] + [block[i]];
  }

  class SampleBuffer {
    /** `maxlen` of the deque, fixed at construction. */
    const capacity: nat
    /** The buffered samples, oldest first. */
    var samples: seq<real>

    ghost predicate Valid()
      reads this
    {
      |samples| <= capacity
    }

    constructor (capacity: nat)
      ensures Valid()
      ensures this.capacity == capacity && samples == []
    {
      this.capacity := capacity;
      samples := [];
    }

    /**
     * `extend`: append a block sample by sample; once the buffer is full each
     * new sample evicts the oldest one. The writer is never blocked.
     */
    method Extend(block: seq<real>)
      requires Valid()
      modifies this
      ensures Valid()
      ensures samples == KeepNewest(old(samples) + block, capacity)
    {
      var i := 0;
      ghost var seen := old(samples);
      while i < |block|
        invariant 0 <= i <= |block|
        invariant Valid()
        invariant seen == old(samples) + block[..i]
        invariant samples == KeepNewest(seen, capacity)
      {
        KeepNewestSnoc(seen, block[i], capacity);
        PrefixSnoc(old(samples), block, i);
        samples := AppendBounded(samples, block[i], capacity);
        seen := seen + [block[i]];
        i := i + 1;
      }
      assert block[..i] == block;
    }

    /**
     * Take exactly `n` samples from the front, oldest first, when at least
     * `n` are buffered; otherwise report nothing and leave the buffer as it
     * is. Never a partial window.
     */
    method PopWindow(n: nat) returns (window: Option<seq<real>>)
      requires Valid()
      modifies this
      ensures Valid()
      ensures |old(samples)| >= n ==> window == Some(old(samples)[..n]) && samples == old(samples)[n..]
      ensures |old(samples)| < n ==> window == None && samples == old(samples)
    {
      if |samples| < n {
        return None;
      }
      var popped: seq<real> := [];
      var i := 0;
      while i < n
        invariant 0 <= i <= n
        invariant popped == old(samples)[..i]
        invariant samples == old(samples)[i..]
      {
        popped := popped + [samples[0]];
        samples := samples[1..];
        i := i + 1;
      }
      return Some(popped);
    }
  }

  /**
   * An extend never shrinks a valid buffer, so a length check of `n <= capacity`
   * samples that passed before an interleaved extend still holds after it.
   */
  lemma ExtendNeverShrinks(s: seq<real>, block: seq<real>, capacity: nat, n: nat)
    requires |s| <= capacity
    requires n <= |s|
    ensures n <= |s| <= |KeepNewest(s + block, capacity)|
  {
  }
}
