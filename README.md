# Live auditory cortex: buffer, trainer and feature extraction

A model of the sequential core of `audio_cortex.py`, a program that listens to
a microphone, cuts the stream into windows of `CHUNK` = 2048 samples, reduces
each window to a three-component feature vector and trains a 20×20
self-organizing map online, one vector at a time.

Three pieces are modelled:

- **The shared sample buffer** (`sample_buffer.dfy`, module `SampleBuffers`):
  the bounded `deque` between the capture loop and the trainer, as a class
  `SampleBuffer` with a fixed `capacity` and a `seq<real>` of samples.
  `Extend` appends a block sample by sample with drop-oldest eviction and is
  proved equal to keeping the newest `capacity` samples of old contents plus
  block. `PopWindow` removes exactly `n` samples from the front, or nothing.
  The capacity itself, `int(RATE*DISPLAY_WINDOW_SEC/CHUNK)*CHUNK + CHUNK`, is
  in `config.dfy` (module `Config`) with the other constants.
- **Feature extraction** (`features.dfy`, module `Features`), as pure
  functions: the bin frequencies of an evenly spaced grid from 0 to RATE/2,
  the half-open band masks over the edges 50, 200, 800, 3200 and 10000 Hz,
  the band energies, the mean absolute sample, and the three-component result.
- **The trainer** (`training.dfy`, module `Training`): a class `Trainer` that
  owns the map weights, the feature history and the step counter, and a
  method `Step` for one pass of the trainer loop. `Launch` builds the
  module-level state. `Act` performs one captured block or one trainer pass,
  and `Run` plays an interleaving of them as one sequential schedule, up to
  the stop signal. `Schedule` is the reference run of such a schedule on
  sample sequences alone, and `Run` is proved to follow it. The
  object invariant says that the history length equals the step count, that
  each history entry is the feature vector of the window popped at that step,
  and that the map is the initial map trained on the history in order.

External collaborators are parameters fixed when the trainer is created: the
magnitude spectrum of a window (`np.abs(rfft(...))` with scipy's `rfft`, non-negative by its type
`Magnitude`), the natural logarithm, and the map's one-step update
(`MiniSom.train`). The spectrum is required to have `|w|/2 + 1` bins for a
window of `|w|` samples, the shape of a real-input transform.

## Model

| member | source | states |
|---|---|---|
| `Config.BufferCapacity` | audio_cortex.py:57 | the capacity is a multiple of the chunk, at least one chunk, and the least such multiple strictly above the display window's sample count |
| `Config.AudioBufferCapacityValue` | audio_cortex.py:41-44 | with the shipped constants the capacity is 87 · 2048 = 178176 samples |
| `SampleBuffers.KeepNewest` | audio_cortex.py:57 | what a bounded deque keeps of a stream: a suffix of it, at most `capacity` long, the whole stream when it fits and exactly `capacity` samples when it does not |
| `SampleBuffers.AppendBounded` | audio_cortex.py:97 | one append with drop-oldest: the length grows by one until the capacity and then stays; the new sample is last, preceded by the old samples minus the evicted oldest one |
| `SampleBuffers.KeepNewestSnoc` | audio_cortex.py:97 | appending one sample with drop-oldest to the kept suffix gives the kept suffix of the longer stream |
| `SampleBuffers.SampleBuffer.constructor` | audio_cortex.py:57 | a new buffer is empty and has the given capacity |
| `SampleBuffers.SampleBuffer.Extend` | audio_cortex.py:97 | after an extend the buffer holds exactly the newest min(capacity, old + block) samples of old contents followed by the block, and never more than the capacity |
| `SampleBuffers.SampleBuffer.PopWindow` | audio_cortex.py:115-117 | with at least n samples it returns the first n in FIFO order and leaves the rest; with fewer it returns nothing and leaves the buffer unchanged |
| `SampleBuffers.ExtendNeverShrinks` | audio_cortex.py:115-117 | an extend never lowers the sample count, so a passed length check stays true across an interleaved extend |
| `Features.BinFrequency` | audio_cortex.py:66 | every grid point lies in [0, RATE/2]; the first is 0, the last is RATE/2 when there are two or more points, and a one-point grid holds only 0 |
| `Features.InBand` | audio_cortex.py:70 | a bin can be in a band only if the band is non-empty and starts at or below RATE/2 |
| `Features.AnyInBand` | audio_cortex.py:71 | `np.any(mask)` can hold only for a non-empty spectrum and a non-empty band starting at or below RATE/2 |
| `Features.MaskExact` | audio_cortex.py:66-70 | the mask `lo <= freq_k < hi` on the bin grid is the integer test `2·lo·(n−1) <= k·RATE < 2·hi·(n−1)` |
| `Features.BinInOneBand` | audio_cortex.py:67-70 | a bin lies in at most one of the four bands, and in one of them exactly when its frequency is in [50, 10000) Hz |
| `Features.NoBinOnBandEdge` | audio_cortex.py:65-70 | on a grid of 1025 points no bin frequency k·22050/1024 Hz equals any of the five band edges |
| `Features.FrequencyOnEdge` | audio_cortex.py:66-70 | a bin frequency equals a given edge exactly when `k·RATE = 2·edge·(n−1)` |
| `Features.MaskedSum` | audio_cortex.py:70-71 | the masked sum of magnitudes is non-negative and is 0.0 when no bin is in the band |
| `Features.MaskedSumZero` | audio_cortex.py:70-71 | the masked sum is 0.0 exactly when every bin in the band has magnitude 0 |
| `Features.BandEnergy` | audio_cortex.py:71 | the `np.any` guard does not change the value: the energy is the masked sum, never negative, 0.0 when the mask is empty |
| `Features.BandEnergyZero` | audio_cortex.py:71 | a band's energy is 0.0 exactly when every bin in the band has magnitude 0 |
| `Features.EnergyBands` | audio_cortex.py:68-71 | one non-negative energy per consecutive edge pair, so four for the five edges |
| `Features.SumAbs` | audio_cortex.py:72 | the sum of absolute samples is non-negative and at most the sample count for samples in [-1, 1] |
| `Features.MeanAbs` | audio_cortex.py:72 | the intensity is non-negative, and at most 1 for samples in [-1, 1] |
| `Features.ExtractFeatures` | audio_cortex.py:64-75 | exactly three components: log(energy of 50–200 Hz + 1), log(energy of 800–3200 Hz + 1), the mean absolute sample; the length guard always holds |
| `Features.FeaturesInRange` | audio_cortex.py:72-75 | both log arguments are at least 1, so for a monotone log with log 1 = 0 both energy features are non-negative; the intensity is in [0, 1] for samples in [-1, 1] |
| `Training.ReplayConcat` | audio_cortex.py:122 | training on one sequence and then another equals training on their concatenation: the map depends only on the ordered history |
| `Training.ReplayFirstStep` | audio_cortex.py:122 | the first vector of the history is the first one trained on the initial map |
| `Training.WindowBinsOffEdges` | audio_cortex.py:65-70 | the spectrum of every trainer window has CHUNK/2 + 1 = 1025 bins, and no bin frequency equals a band edge |
| `Training.Trainer.RecordedSnoc` | audio_cortex.py:118-120 | appending a full window and its feature vector keeps every history entry the feature vector of its window |
| `Training.Trainer.constructor` | audio_cortex.py:58-61 | the history starts empty, the step counter at 0 and the map at its initial weights |
| `Training.Trainer.Step` | audio_cortex.py:114-125 | with a full window buffered: pops it, appends exactly its feature vector to the history, trains the map once on it and adds one step; otherwise changes nothing; the history length equals the step count after it |
| `Training.Launch` | audio_cortex.py:52-61 | the module setup: an empty buffer of capacity 178176, an empty history, no steps, the initial map |
| `Training.PollCount` | audio_cortex.py:114 | a schedule has at most as many trainer passes as events |
| `Training.SchedulePolls` | audio_cortex.py:114-117 | the reference run of a schedule pops at most one window per trainer pass |
| `Training.ScheduleAccounts` | audio_cortex.py:97-117 | what the reference run leaves in the buffer is a suffix of the starting samples followed by the captured blocks; without eviction the popped windows in order followed by the buffer are exactly those samples |
| `Training.Act` | audio_cortex.py:97-125 | a captured block extends the buffer and leaves the trainer alone; a pass trains exactly when a full window is buffered, popping it and recording it; the invariant holds after either |
| `Training.Run` | audio_cortex.py:93-125 | under any interleaving of captured blocks and trainer passes up to the stop signal, the buffer and the popped windows are exactly those of the reference run `Schedule`: each block is appended with drop-oldest, each pass that finds a full window pops and trains on it, and no other pass trains; the step count is the number of windows popped, at most one per pass; the invariant holds, so the history holds one feature vector per popped window; the buffer is a suffix of the old samples followed by the captured blocks, and without eviction the popped windows followed by the buffer are exactly those samples |

## Left out

- Microphone capture: opening, reading and closing the audio stream, the error messages and the cleanup (audio_cortex.py:78-109) are device I/O; a captured block is an input.
- Threads, `training_lock`, `stop_event` and the sleeps: the two loops are modelled as one sequential schedule where each extend and each trainer pass is atomic. In the source the length check and the `popleft` loop are separate steps; an extend never lowers the sample count (at the capacity it evicts one sample per sample it adds), so only the trainer lowers it and an interleaved extend cannot make the check false (`ExtendNeverShrinks`); but an extend can evict samples of the window while it is being popped. That case is not modelled.
- The self-organizing map: initialisation, best-matching-unit search and the Gaussian update live in the MiniSom library, whose code is not part of this model; one training step is an arbitrary fixed function of the weights and the vector.
- The Fourier transform, `np.log` and float rounding: magnitudes are given non-negative reals, the logarithm is a parameter, samples and sums are exact reals rather than 32-bit and 64-bit floats. The bin grid is exact rational arithmetic. For the trainer's windows the grid has 1025 points with step 22050/1024 Hz; that step is a binary fraction, so each point k·22050/1024 is exactly representable as a double, and none of them equals a band edge (`NoBinOnBandEdge`, `WindowBinsOffEdges`), so the mask selects the same bins as the rational model.
- `Features.ExtractFeatures` requires a non-empty window: scipy's `rfft` (audio_cortex.py:31) raises on an empty one, and the trainer only ever passes CHUNK samples.
- `Training.Replay` has no contract of its own: it is the reference definition of online training, and its properties are `ReplayConcat` and `ReplayFirstStep`.
- `Training.Effect` and `Training.Schedule` have no contract of their own: they are the reference definitions of one action and of a whole schedule, and their properties are `SchedulePolls`, `ScheduleAccounts` and the contract of `Run`.
- `Training.Trainer.Extract` has no contract of its own: it is the `extract_features(chunk)` call at audio_cortex.py:118, `ExtractFeatures` applied to the window's spectrum (:65), and its properties are those of `Features.ExtractFeatures`.
- Visualisation, the key handler, saving the weights and the summary figure (audio_cortex.py:128-290) are UI and file output.
