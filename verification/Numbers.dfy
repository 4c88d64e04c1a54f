/** The arithmetic the services share. */
module Numbers {
  function Min(a: int, b: int): int { if a < b then a else b }

  /** `max(low, min(v, high))`. */
  function Clamp(v: int, low: int, high: int): (r: int)
    ensures low <= high ==> low <= r <= high
    ensures low <= v <= high ==> r == v
    ensures low <= high && v <= low ==> r == low
    ensures low <= high && high <= v ==> r == high
  {
    if low > Min(v, high) then low else Min(v, high)
  }
}
