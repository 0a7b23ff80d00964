// The `processing` settings both feature builders read, and the window
// length they derive from them.

module Config {
  /** Python's `int(x)` on a float: truncation toward zero. */
  function Trunc(x: real): (n: int)
    ensures 0.0 <= x ==> 0 <= n && n as real <= x < n as real + 1.0
    ensures x < 0.0 ==> n <= 0 && n as real - 1.0 < x <= n as real
  {
    if x >= 0.0 then x.Floor else -((-x).Floor)
  }

  /**
   * The `processing` settings: sampling rate, window length in seconds,
   * overlap fraction, and the data columns (read by the batch-wise
   * builder only).
   */
  datatype Processing = Processing(samplingRate: real, windowSizeSec: real, overlap: real, dataColumns: seq<string>)

  /** `int(window_sec * fs)`: the number of samples in a window. */
  function WindowSize(p: Processing): int
  {
    Trunc(p.windowSizeSec * p.samplingRate)
  }
}
