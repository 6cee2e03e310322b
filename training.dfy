/**
 * The trainer: it takes one window at a time from the shared sample buffer,
 * turns it into a feature vector, appends that vector to the history, trains
 * the self-organizing map on it once and counts the step. The map update,
 * the magnitude spectrum and the logarithm belong to libraries whose code is
 * not modelled; they are fixed functions given to the trainer when it is
 * created.
 */
module Training {
  import opened Wrappers
  import opened Config
  import opened Features
  import opened SampleBuffers

  /**
   * The map after online training, one step per vector, on `fs` in order:
   * built from the last vector backwards, it trains the first vector first.
   */
  function Replay<W>(train: (W, seq<real>) -> W, w0: W, fs: seq<seq<real>>): (w: W)
    decreases |fs|
  {
    if fs == [] then w0 else train(Replay(train, w0, fs[..|fs| - 1]), fs[|fs| - 1])
  }

  /** Online training takes the vectors first to last: the first one is trained first. */
  lemma {:induction false} ReplayFirstStep<W>(train: (W, seq<real>) -> W, w0: W, fs: seq<seq<real>>)
    requires fs != []
    ensures Replay(train, w0, fs) == Replay(train, train(w0, fs[0]), fs[1..])
    decreases |fs|
  {
    if |fs| > 1 {
      var init := fs[..|fs| - 1];
      assert init[1..] == fs[1..][..|fs[1..]| - 1];
      ReplayFirstStep(train, w0, init);
    }
  }

  /** A real-input transform of `w` samples has `w / 2 + 1` frequency bins. */
  ghost predicate SpectrumShape(spectrum: seq<real> -> seq<Magnitude>)
  {
    forall w :: |spectrum(w)| == |w| / 2 + 1
  }

  /** The spectrum of a trainer window has CHUNK / 2 + 1 = 1025 bins, none on a band edge. */
  lemma WindowBinsOffEdges(spectrum: seq<real> -> seq<Magnitude>, window: seq<real>)
    requires SpectrumShape(spectrum)
    requires |window| == CHUNK
    ensures |spectrum(window)| == 1025
    ensures forall k: nat, i :: k < |spectrum(window)| && 0 <= i < |BAND_EDGES| ==>
      BinFrequency(k, |spectrum(window)|) != BAND_EDGES[i] as real
  {
    NoBinOnBandEdge();
  }

  /**
   * Training is strictly sequential: training on `a` and then on `b` is
   * training on `a + b` from the same initial map.
   */
  lemma {:induction false} ReplayConcat<W>(train: (W, seq<real>) -> W, w0: W, a: seq<seq<real>>, b: seq<seq<real>>)
    ensures Replay(train, w0, a + b) == Replay(train, Replay(train, w0, a), b)
    decreases |b|
  {
    if b == [] {
      assert a + b == a;
    } else {
      var b' := b[..|b| - 1];
      assert (a + b)[..|a + b| - 1] == a + b';
      ReplayConcat(train, w0, a, b');
    }
  }

  class Trainer<W> {
    /** The buffer shared with the capture loop. */
    const buffer: SampleBuffer
    /** One online step of the map on one feature vector. */
    const train: (W, seq<real>) -> W
    /** The magnitude spectrum of a window, one bin per non-negative frequency. */
    const spectrum: seq<real> -> seq<Magnitude>
    /** The natural logarithm. */
    const ln: real -> real
    ghost const initialWeights: W

    var weights: W
    var history: seq<seq<real>>
    var trainedSteps: nat
    /** The windows popped so far, in order. */
    ghost var windows: seq<seq<real>>

    /** The feature vector of one window. */
    function Extract(window: seq<real>): (r: seq<real>)
      requires |window| > 0
    {
      ExtractFeatures(spectrum(window), window, ln)
    }

    /** Entry `i` of `hs` is the feature vector of window `i` of `ws`, a full window. */
    ghost predicate Recorded(ws: seq<seq<real>>, hs: seq<seq<real>>)
    {
      && |ws| == |hs|
      && (forall i :: 0 <= i < |ws| ==> |ws[i]| == CHUNK)
      && forall i {:trigger Extract(ws[i])} :: 0 <= i < |ws| ==> hs[i] == Extract(ws[i])
    }

    /** Recording one more full window with its feature vector keeps the record. */
    lemma RecordedSnoc(ws: seq<seq<real>>, hs: seq<seq<real>>, w: seq<real>)
      requires Recorded(ws, hs) && |w| == CHUNK
      ensures Recorded(ws + [w], hs + [Extract(w)])
    {
      var ws', hs' := ws + [w], hs + [Extract(w)];
      forall i | 0 <= i < |ws'|
        ensures hs'[i] == Extract(ws'[i])
      {
        if i < |ws| {
          assert ws'[i] == ws[i] && hs'[i] == hs[i] == Extract(ws[i]);
        }
      }
    }

    /**
     * History and step counter agree; each history entry is the feature
     * vector of the window popped at that step; the map is the initial map
     * trained on the history in order.
     */
    ghost predicate Valid()
      reads this, buffer
    {
      && buffer.Valid()
      && |history| == trainedSteps
      && Recorded(windows, history)
      && weights == Replay(train, initialWeights, history)
    }

    constructor (buffer: SampleBuffer, w0: W, train: (W, seq<real>) -> W,
                 spectrum: seq<real> -> seq<Magnitude>, ln: real -> real)
      requires buffer.Valid()
      requires SpectrumShape(spectrum)
      ensures Valid()
      ensures this.buffer == buffer && this.train == train && this.spectrum == spectrum && this.ln == ln
      ensures initialWeights == w0 && weights == w0
      ensures history == [] && trainedSteps == 0 && windows == []
    {
      this.buffer := buffer;
      this.train := train;
      this.spectrum := spectrum;
      this.ln := ln;
      initialWeights := w0;
      weights := w0;
      history := [];
      trainedSteps := 0;
      windows := [];
    }

    /**
     * One pass of the trainer loop. With at least CHUNK samples buffered it
     * pops the oldest CHUNK, appends their feature vector to the history,
     * trains the map once on it and counts one step; otherwise nothing changes.
     */
    method Step() returns (trained: bool)
      requires Valid()
      modifies this, buffer
      ensures Valid()
      ensures trained <==> |old(buffer.samples)| >= CHUNK
      ensures trained ==>
        var window := old(buffer.samples)[..CHUNK];
        && buffer.samples == old(buffer.samples)[CHUNK..]
        && windows == old(windows) + [window]
        && history == old(history) + [Extract(window)]
        && weights == train(old(weights), Extract(window))
        && trainedSteps == old(trainedSteps) + 1
      ensures !trained ==>
        && buffer.samples == old(buffer.samples)
        && windows == old(windows) && history == old(history)
        && weights == old(weights) && trainedSteps == old(trainedSteps)
    {
      var chunk := buffer.PopWindow(CHUNK);
      if chunk.None? {
        return false;
      }
      var feat := Extract(chunk.value);
      RecordedSnoc(windows, history, chunk.value);
      // the critical section: history, map and counter change together
      history := history + [feat];
      weights := train(weights, feat);
      trainedSteps := trainedSteps + 1;
      windows := windows + [chunk.value];
      assert history[..|history| - 1] == old(history);
      return true;
    }
  }

  /**
   * The module-level setup: the shared buffer with the configured capacity,
   * an empty history, no steps and the initial map.
   */
  method Launch<W>(w0: W, train: (W, seq<real>) -> W,
                   spectrum: seq<real> -> seq<Magnitude>, ln: real -> real) returns (t: Trainer<W>)
    requires SpectrumShape(spectrum)
    ensures fresh(t) && fresh(t.buffer)
    ensures t.Valid()
    ensures t.buffer.capacity == AUDIO_BUFFER_CAPACITY && t.buffer.samples == []
    ensures t.train == train && t.spectrum == spectrum && t.ln == ln
    ensures t.weights == w0 && t.history == [] && t.trainedSteps == 0 && t.windows == []
  {
    var buffer := new SampleBuffer(AUDIO_BUFFER_CAPACITY);
    t := new Trainer(buffer, w0, train, spectrum, ln);
  }

  /** One atomic action of either loop, in the order they interleave. */
  datatype Event =
    | Captured(block: seq<real>)   // the capture loop extends the buffer with one block
    | Poll                         // one pass of the trainer loop
    | Stop                         // the stop signal: both loops exit

  /** The number of trainer passes in a schedule. */
  function PollCount(events: seq<Event>): (n: nat)
    ensures n <= |events|
  {
    if events == [] then 0 else (if events[0].Poll? then 1 else 0) + PollCount(events[1..])
  }

  /** The captured blocks before the first stop signal, joined in order. */
  function Blocks(events: seq<Event>): (r: seq<real>)
  {
    if events == [] then []
    else match events[0]
      case Stop => []
      case Captured(block) => block + Blocks(events[1..])
      case Poll => Blocks(events[1..])
  }

  /** Windows joined in order. */
  function Flatten(ws: seq<seq<real>>): (r: seq<real>)
  {
    if ws == [] then [] else ws[0] + Flatten(ws[1..])
  }

  ghost predicate IsSuffix(a: seq<real>, b: seq<real>)
  {
    |a| <= |b| && b[|b| - |a|..] == a
  }

  lemma SuffixExtend(a: seq<real>, b: seq<real>, block: seq<real>)
    requires IsSuffix(a, b)
    ensures IsSuffix(a + block, b + block)
  {
    assert (b + block)[|b| - |a|..] == b[|b| - |a|..] + block;
  }

  lemma SuffixTransitive(a: seq<real>, b: seq<real>, c: seq<real>)
    requires IsSuffix(a, b) && IsSuffix(b, c)
    ensures IsSuffix(a, c)
  {
    assert c[|c| - |a|..] == c[|c| - |b|..][|b| - |a|..];
  }

  lemma Associative<T>(a: seq<T>, b: seq<T>, c: seq<T>)
    ensures (a + b) + c == a + (b + c)
  {
  }

  /**
   * What one action does to the buffered samples, and the windows it pops:
   * a captured block is appended with drop-oldest; a trainer pass pops the
   * oldest CHUNK samples as one window when there are that many, and
   * otherwise does nothing.
   */
  function Effect(samples: seq<real>, e: Event, capacity: nat): (r: (seq<real>, seq<seq<real>>))
    requires !e.Stop?
  {
    if e.Captured? then (KeepNewest(samples + e.block, capacity), [])
    else if |samples| >= CHUNK then (samples[CHUNK..], [samples[..CHUNK]])
    else (samples, [])
  }

  /**
   * The reference run of a schedule from `samples`: the samples left in the
   * buffer and the windows popped in order, up to the end of the schedule or
   * the first stop signal.
   */
  function Schedule(samples: seq<real>, events: seq<Event>, capacity: nat): (r: (seq<real>, seq<seq<real>>))
    decreases |events|
  {
    if events == [] || events[0].Stop? then (samples, [])
    else
      var step := Effect(samples, events[0], capacity);
      var rest := Schedule(step.0, events[1..], capacity);
      (rest.0, step.1 + rest.1)
  }

  /** The schedule from position `i` performs event `i` first. */
  lemma ScheduleUnfold(samples: seq<real>, events: seq<Event>, i: nat, capacity: nat)
    requires i < |events| && !events[i].Stop?
    ensures Schedule(samples, events[i..], capacity) ==
      var step := Effect(samples, events[i], capacity);
      var rest := Schedule(step.0, events[i + 1..], capacity);
      (rest.0, step.1 + rest.1)
  {
    assert events[i..][1..] == events[i + 1..];
  }

  /** A schedule pops at most one window per trainer pass. */
  lemma {:induction false} SchedulePolls(samples: seq<real>, events: seq<Event>, capacity: nat)
    ensures |Schedule(samples, events, capacity).1| <= PollCount(events)
    decreases |events|
  {
    if events != [] && !events[0].Stop? {
      SchedulePolls(Effect(samples, events[0], capacity).0, events[1..], capacity);
    }
  }

  /**
   * Where the samples go: what a schedule leaves in the buffer is a suffix of
   * the starting samples followed by the captured blocks, and when nothing
   * had to be evicted, the popped windows in order followed by what is left
   * are exactly those samples.
   */
  lemma {:induction false} ScheduleAccounts(samples: seq<real>, events: seq<Event>, capacity: nat)
    ensures IsSuffix(Schedule(samples, events, capacity).0, samples + Blocks(events))
    ensures |samples| + |Blocks(events)| <= capacity ==>
      Flatten(Schedule(samples, events, capacity).1) + Schedule(samples, events, capacity).0 == samples + Blocks(events)
    decreases |events|
  {
    var r := Schedule(samples, events, capacity);
    if events == [] || events[0].Stop? {
      assert samples + Blocks(events) == samples;
      assert Flatten(r.1) == [];
    } else {
      var e, tail := events[0], events[1..];
      var step := Effect(samples, e, capacity);
      var rest := Schedule(step.0, tail, capacity);
      var blocks := Blocks(tail);
      ScheduleAccounts(step.0, tail, capacity);
      assert r == (rest.0, step.1 + rest.1);
      if e.Captured? {
        assert Blocks(events) == e.block + blocks;
        Associative(samples, e.block, blocks);
        SuffixExtend(step.0, samples + e.block, blocks);
        SuffixTransitive(rest.0, step.0 + blocks, samples + e.block + blocks);
        assert step.1 + rest.1 == rest.1;
        if |samples| + |Blocks(events)| <= capacity {
          assert step.0 == samples + e.block;
        }
      } else if |samples| >= CHUNK {
        var w := samples[..CHUNK];
        assert Blocks(events) == blocks;
        assert samples == w + step.0;
        assert IsSuffix(step.0, samples);
        SuffixExtend(step.0, samples, blocks);
        SuffixTransitive(rest.0, step.0 + blocks, samples + blocks);
        assert ([w] + rest.1)[1..] == rest.1;
        assert Flatten(r.1) == w + Flatten(rest.1);
        Associative(w, Flatten(rest.1), rest.0);
        Associative(w, step.0, blocks);
      } else {
        assert Blocks(events) == blocks;
        assert step.1 + rest.1 == rest.1;
      }
    }
  }

  /**
   * One atomic action of either loop: a captured block extends the buffer;
   * a trainer pass is one `Step`. The stop signal is handled by `Run`.
   */
  method Act<W>(t: Trainer<W>, e: Event) returns (trained: bool)
    requires t.Valid()
    requires !e.Stop?
    modifies t, t.buffer
    ensures t.Valid()
    ensures trained <==> e.Poll? && |old(t.buffer.samples)| >= CHUNK
    ensures t.trainedSteps == old(t.trainedSteps) + (if trained then 1 else 0)
    ensures old(t.history) <= t.history
    ensures t.buffer.samples ==
      if e.Captured? then KeepNewest(old(t.buffer.samples) + e.block, t.buffer.capacity)
      else if trained then old(t.buffer.samples)[CHUNK..]
      else old(t.buffer.samples)
    ensures t.windows == old(t.windows) + if trained then [old(t.buffer.samples)[..CHUNK]] else []
  {
    if e.Captured? {
      t.buffer.Extend(e.block);
      trained := false;
    } else {
      trained := t.Step();
    }
  }

  /**
   * Both loops run as one sequential schedule until the schedule ends or the
   * stop signal arrives. The buffer and the popped windows end up exactly as
   * the reference `Schedule` says: every trainer pass that finds a full
   * window pops and trains on it, and no other pass trains. The trainer's
   * invariant holds throughout, so the history holds one feature vector per
   * popped window and its length equals the step count. Hence the history
   * only grows at its end, by at most one vector per poll, the buffer is a
   * suffix of the old samples followed by the captured blocks, and when
   * nothing had to be evicted, the windows popped in order followed by the
   * buffer are exactly the old samples followed by the captured blocks.
   */
  method Run<W>(t: Trainer<W>, events: seq<Event>) returns (steps: nat)
    requires t.Valid()
    modifies t, t.buffer
    ensures t.Valid()
    ensures t.buffer.samples == Schedule(old(t.buffer.samples), events, t.buffer.capacity).0
    ensures t.windows == old(t.windows) + Schedule(old(t.buffer.samples), events, t.buffer.capacity).1
    ensures steps == |Schedule(old(t.buffer.samples), events, t.buffer.capacity).1|
    ensures t.trainedSteps == old(t.trainedSteps) + steps
    ensures steps <= PollCount(events)
    ensures old(t.history) <= t.history && old(t.windows) <= t.windows
    ensures IsSuffix(t.buffer.samples, old(t.buffer.samples) + Blocks(events))
    ensures |old(t.buffer.samples)| + |Blocks(events)| <= t.buffer.capacity ==>
      Flatten(t.windows[|old(t.windows)|..]) + t.buffer.samples == old(t.buffer.samples) + Blocks(events)
  {
    steps := 0;
    var i := 0;
    ghost var windows0, samples0 := t.windows, t.buffer.samples;
    ghost var final := Schedule(samples0, events, t.buffer.capacity);
    ghost var popped: seq<seq<real>> := [];
    while i < |events| && !events[i].Stop?
      invariant 0 <= i <= |events|
      invariant t.Valid()
      invariant t.trainedSteps == old(t.trainedSteps) + steps
      invariant steps == |popped|
      invariant old(t.history) <= t.history
      invariant t.windows == windows0 + popped
      invariant final.0 == Schedule(t.buffer.samples, events[i..], t.buffer.capacity).0
      invariant final.1 == popped + Schedule(t.buffer.samples, events[i..], t.buffer.capacity).1
    {
      var e := events[i];
      ghost var before := t.buffer.samples;
      ghost var step := Effect(before, e, t.buffer.capacity);
      ghost var rest := Schedule(step.0, events[i + 1..], t.buffer.capacity);
      ScheduleUnfold(before, events, i, t.buffer.capacity);
      var trained := Act(t, e);
      assert t.buffer.samples == step.0;
      assert t.windows == (windows0 + popped) + step.1;
      Associative(windows0, popped, step.1);
      Associative(popped, step.1, rest.1);
      steps := steps + if trained then 1 else 0;
      popped := popped + step.1;
      i := i + 1;
    }
    if i < |events| {
      assert events[i..][0].Stop?;
    } else {
      assert events[i..] == [];
    }
    assert t.windows[|windows0|..] == popped;
    SchedulePolls(samples0, events, t.buffer.capacity);
    ScheduleAccounts(samples0, events, t.buffer.capacity);
  }
}
