/** The `safeValue` of components/ui/progress.tsx: the bar's fill, the given
    value clamped to 0..100, with 0 for anything that is not a finite
    number. */
module Progress {
  import opened Finance

  /** The `value` prop: absent (so the default 0 applies), null, or a
      JavaScript number, possibly NaN or infinite. */
  datatype ProgressValue = Undefined | Null | Num(n: Extended)

  /** `value = 0`: only an absent prop takes the default. */
  function WithDefault(value: ProgressValue): ProgressValue
  {
    if value.Undefined? then Num(Finite(0.0)) else value
  }

  /** `Number.isFinite(value) ? Math.min(Math.max(value, 0), 100) : 0`. */
  function SafeValue(value: ProgressValue): (r: real)
    ensures 0.0 <= r <= 100.0
  {
    match WithDefault(value)
    case Num(Finite(v)) => if v < 0.0 then 0.0 else if v > 100.0 then 100.0 else v
    case _ => 0.0
  }

  /** Finite values are clamped: already in range they pass through,
      below it they give 0, above it 100. */
  lemma SafeValueClamps(v: real)
    ensures 0.0 <= v <= 100.0 ==> SafeValue(Num(Finite(v))) == v
    ensures v < 0.0 ==> SafeValue(Num(Finite(v))) == 0.0
    ensures v > 100.0 ==> SafeValue(Num(Finite(v))) == 100.0
  {
  }

  /** NaN, the infinities and null give 0, and so does an absent value,
      through the default. */
  lemma SafeValueNonFinite(value: ProgressValue)
    requires value.Null? || value.Undefined? || (value.Num? && !value.n.Finite?)
    ensures SafeValue(value) == 0.0
  {
  }

  /** Over finite values the fill never decreases as the value grows. */
  lemma SafeValueMonotone(a: real, b: real)
    requires a <= b
    ensures SafeValue(Num(Finite(a))) <= SafeValue(Num(Finite(b)))
  {
  }

  /** The clamp is idempotent: a safe value is its own safe value. */
  lemma SafeValueIdempotent(value: ProgressValue)
    ensures SafeValue(Num(Finite(SafeValue(value)))) == SafeValue(value)
  {
  }
}
