/** Time as every component but the cache reads it: real seconds of a monotone clock, read once per call. */
module Clock {

  type Instant = real

  type Duration = d: real | 0.0 <= d witness 0.0
}
