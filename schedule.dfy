/** `std::time::Duration` as a count of nanoseconds, and the interval rule that both
    scheduler builders (src/sensor_posts.rs and src/requests.rs) apply to their
    optional "time per item" and "total time" settings. */
module Schedule {
  import opened Common

  const NanosPerSec: nat := 1_000_000_000

  /** The message `Duration / u32` panics with when the divisor is zero. */
  const DivideByZero: string := "divide by zero error when dividing duration by scalar"

  /** `Duration / u32`: truncating division of the whole duration, which panics on a
      zero divisor. */
  function DivDuration(d: nat, k: u32): (r: Panicking<nat>)
    ensures r.Panics? <==> k == 0
    ensures r.Returns? ==> r.value * k <= d < r.value * k + k
  {
    if k == 0 then Panics(DivideByZero) else Returns(d / k)
  }

  /** The 2x2 split on (time per item, total time): neither gives the default,
      only the total spreads it evenly over `count` items, and a time per item
      always wins, the total being ignored. */
  function ResolveInterval(perItem: Option<nat>, total: Option<nat>, count: u32, default: nat): (r: Panicking<nat>)
    ensures r.Panics? <==> perItem.None? && total.Some? && count == 0
    ensures perItem.Some? ==> r == Returns(perItem.value)
    ensures perItem.None? && total.None? ==> r == Returns(default)
    ensures perItem.None? && total.Some? && r.Returns? ==>
              r.value * count <= total.value < r.value * count + count
  {
    match (perItem, total)
    case (None, None) => Returns(default)
    case (None, Some(t)) => DivDuration(t, count)
    case (Some(p), None) => Returns(p)
    case (Some(p), Some(_)) => Returns(p)
  }
}
