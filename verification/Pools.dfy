/**
 * The `{current, max}` counter that holds both the charges of a consumable
 * and the hit points of a character, with the clamped updates applied to it.
 */
module Pools {

  datatype Pool = Pool(current: int, max: int)

  /** The data model's invariant `0 <= current <= max`. */
  predicate InRange(p: Pool) {
    0 <= p.current <= p.max
  }

  /**
   * The shapes a constructor accepts for `charges` or `hp`: a bare number,
   * an object with `current` and `max`, or nothing.
   */
  datatype PoolSpec = Bare(n: int) | Pair(current: int, max: int) | Unset

  /**
   * `data.hp?.current || data.hp || 1` takes the whole object as the number
   * when a part of a pair is 0; such inputs are outside the model.
   */
  predicate Normalizable(spec: PoolSpec) {
    spec.Pair? ==> spec.current != 0 && spec.max != 0
  }

  /** The constructors' normalisation of `charges` / `hp`. */
  function Normalize(spec: PoolSpec): (p: Pool)
    requires Normalizable(spec)
    ensures p.current != 0 && p.max != 0
    ensures !spec.Pair? ==> p.current == p.max
    ensures spec.Pair? ==> p == Pool(spec.current, spec.max)
    ensures spec.Bare? && spec.n != 0 ==> p.current == spec.n
    ensures spec.Unset? || spec == Bare(0) ==> p == Pool(1, 1)
    ensures InRange(p) <==> (!spec.Pair? && (spec.Bare? ==> spec.n >= 0)) || (spec.Pair? && 0 < spec.current <= spec.max)
  {
    match spec
    case Bare(n) => if n == 0 then Pool(1, 1) else Pool(n, n)
    case Pair(c, m) => Pool(c, m)
    case Unset => Pool(1, 1)
  }

  /** `Math.ceil(m / 2)`: the least `r` with `2 * r >= m`. */
  function CeilHalf(m: int): (r: int)
    ensures m <= 2 * r <= m + 1
  {
    (m + 1) / 2
  }

  function Min(a: int, b: int): int { if a <= b then a else b }

  function Max(a: int, b: int): int { if a >= b then a else b }

  /** `current -= amount`, as `use` does once it has checked `current >= amount`. */
  function Spent(p: Pool, amount: int): (r: Pool)
    ensures r.max == p.max
    ensures r.current + amount == p.current
    ensures InRange(p) && 0 <= amount <= p.current ==> InRange(r)
  {
    p.(current := p.current - amount)
  }

  /** `current = Math.max(0, current - amount)`: damage, floored at 0. */
  function Lowered(p: Pool, amount: int): (r: Pool)
    ensures r.max == p.max
    ensures 0 <= r.current
    ensures amount >= 0 && p.current >= 0 ==> r.current <= p.current
    ensures r.current == 0 <==> p.current <= amount
    ensures r.current > 0 ==> r.current + amount == p.current
    ensures InRange(p) && amount >= 0 ==> InRange(r)
  {
    p.(current := Max(0, p.current - amount))
  }

  /** `current = Math.min(max, current + amount)`: healing and recovery, capped at `max`. */
  function Raised(p: Pool, amount: int): (r: Pool)
    ensures r.max == p.max
    ensures r.current <= p.max
    ensures amount >= 0 && p.current <= p.max ==> p.current <= r.current
    ensures r.current == p.max <==> p.current + amount >= p.max
    ensures r.current < p.max ==> r.current == p.current + amount
    ensures InRange(p) && amount >= 0 ==> InRange(r)
  {
    p.(current := Min(p.max, p.current + amount))
  }
}
