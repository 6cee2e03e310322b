/**
 * The configuration constants of the live auditory pipeline and the
 * capacity of the shared sample buffer derived from them.
 */
module Config {
  /** Samples per block read from the microphone and per training window. */
  const CHUNK: nat := 2048
  /** Sample rate in Hz. */
  const RATE: nat := 44100
  /** Seconds of audio the waveform display shows. */
  const DISPLAY_WINDOW_SEC: nat := 4

  /**
   * `int(rate * seconds / chunk) * chunk + chunk`: the display window rounded
   * down to whole chunks, plus one chunk of slack. The quotient is taken on
   * integers: with the configured values the product 176400 and the divisor
   * 2048 = 2^11 are exact doubles and dividing by a power of two is exact,
   * so the float quotient 86.1328125 truncated by `int` is the floor, 86.
   * The result is the least multiple of `chunk` strictly above `rate * seconds`.
   */
  function BufferCapacity(rate: nat, seconds: nat, chunk: nat): (c: nat)
    requires chunk > 0
    ensures c % chunk == 0
    ensures c >= chunk
    ensures rate * seconds < c <= rate * seconds + chunk
  {
    var samples := rate * seconds;
    var q := samples / chunk;
    assert samples == q * chunk + samples % chunk;
    MultipleMod(q + 1, chunk);
    (q + 1) * chunk
  }

  /** A whole number of chunks leaves no remainder. */
  lemma MultipleMod(q: nat, chunk: nat)
    requires chunk > 0
    ensures (q * chunk) % chunk == 0
  {
    var d, r := (q * chunk) / chunk, (q * chunk) % chunk;
    assert q * chunk == d * chunk + r;
    assert (q - d) * chunk == r;
    ScaleBounds(q - d, chunk);
  }

  lemma ScaleBounds(z: int, m: nat)
    requires m > 0
    ensures z >= 1 ==> z * m >= m
    ensures z <= -1 ==> z * m <= -(m as int)
  {
  }

  /** `maxlen` of the shared sample buffer. */
  const AUDIO_BUFFER_CAPACITY: nat := BufferCapacity(RATE, DISPLAY_WINDOW_SEC, CHUNK)

  /** With the shipped constants the buffer holds 87 whole chunks. */
  lemma AudioBufferCapacityValue()
    ensures AUDIO_BUFFER_CAPACITY == 87 * CHUNK == 178176
    ensures AUDIO_BUFFER_CAPACITY % CHUNK == 0 && AUDIO_BUFFER_CAPACITY >= CHUNK
  {
    assert RATE * DISPLAY_WINDOW_SEC / CHUNK == 86;
  }
}
