/**
 * A consumable: a named pool of charges (spell slots, per-rest abilities,
 * limited-use items) together with the condition that refills it and the
 * policy by which it is refilled.
 */
module Consumables {
  import opened Wrappers
  import opened Defaults
  import opened Pools

  /** The derived `resetType`: `'rest'`, `'time'` or `'never'`. */
  datatype ResetType = RestBased | TimeBased | NoReset

  /** `getResetType`: the two rests are rest-based, dawn and dusk time-based, anything else never resets. */
  function ResetTypeOf(condition: string): (t: ResetType)
    ensures t == RestBased <==> condition == "long_rest" || condition == "short_rest"
    ensures t == TimeBased <==> condition == "dawn" || condition == "dusk"
  {
    if condition == "long_rest" || condition == "short_rest" then RestBased
    else if condition == "dawn" || condition == "dusk" then TimeBased
    else NoReset
  }

  /**
   * The `recoveryType` as `recover` reads it: the string `'full'`, the
   * string `'dice'`, a number, or some other string (which recovers nothing).
   */
  datatype RecoveryType = Full | Dice | Fixed(amount: int) | Unrecognised

  /** What a caller may pass as `recoveryType`. */
  datatype RawRecovery = Absent | Text(s: string) | Number(n: int)

  /** `data.recoveryType || 'full'`, then read as `recover`'s switch reads it. */
  function ParseRecovery(raw: RawRecovery): (r: RecoveryType)
    ensures r == Full <==> raw.Absent? || raw == Text("") || raw == Text("full") || raw == Number(0)
    ensures r == Dice <==> raw == Text("dice")
    ensures r.Fixed? <==> raw.Number? && raw.n != 0
    ensures r.Fixed? ==> r.amount == raw.n
  {
    match raw
    case Absent => Full
    case Text(s) => if s == "" || s == "full" then Full else if s == "dice" then Dice else Unrecognised
    case Number(n) => if n == 0 then Full else Fixed(n)
  }

  /** A recovery that can only add charges. */
  predicate NonNegative(rt: RecoveryType) {
    rt.Fixed? ==> rt.amount >= 0
  }

  /**
   * `recover`: 'full' refills, 'dice' adds the placeholder `ceil(max / 2)`,
   * a number adds that many, all capped at `max`; anything else is a no-op.
   */
  function Recovered(p: Pool, rt: RecoveryType): (r: Pool)
    ensures r.max == p.max
    ensures rt.Full? ==> r.current == p.max
    ensures rt.Unrecognised? ==> r == p
    ensures InRange(p) && NonNegative(rt) ==> InRange(r) && p.current <= r.current
    ensures InRange(p) && rt.Dice? ==> p.max <= 2 * r.current
    ensures rt.Dice? ==> r == Raised(p, CeilHalf(p.max))
    ensures rt.Fixed? ==> r == Raised(p, rt.amount)
  {
    match rt
    case Full => p.(current := p.max)
    case Dice => Raised(p, CeilHalf(p.max))
    case Fixed(n) => Raised(p, n)
    case Unrecognised => p
  }

  /** Two placeholder 'dice' recoveries refill any pool in range, whatever it held. */
  lemma DiceTwiceRefills(p: Pool)
    requires InRange(p)
    ensures Recovered(Recovered(p, Dice), Dice) == p.(current := p.max)
  {
    var once := Recovered(p, Dice);
    assert p.max <= 2 * once.current;
    assert CeilHalf(p.max) * 2 >= p.max;
  }

  /** The constructor's argument object. */
  datatype ConsumableData = ConsumableData(
    id: Option<string>,
    name: string,
    charges: PoolSpec,
    resetCondition: Option<string>,
    recoveryType: RawRecovery,
    recoveryAmount: Option<int>,
    description: Option<string>,
    notes: Option<string>)

  class Consumable {
    const id: string
    const name: string
    var charges: Pool
    const resetCondition: string
    const resetType: ResetType
    const recoveryType: RecoveryType
    const recoveryAmount: Option<int>
    const description: string
    const notes: string

    /** The reset type is the one derived from the reset condition. */
    ghost predicate Valid() {
      resetType == ResetTypeOf(resetCondition)
    }

    /** `freshId` stands for `generateId()`, used when `data.id` is missing or empty. */
    constructor (data: ConsumableData, freshId: string)
      requires Normalizable(data.charges)
      ensures Valid()
      ensures id == OrText(data.id, freshId) && name == data.name
      ensures charges == Normalize(data.charges)
      ensures resetCondition == OrText(data.resetCondition, "long_rest")
      ensures recoveryType == ParseRecovery(data.recoveryType)
      ensures recoveryAmount == data.recoveryAmount
      ensures description == OrText(data.description, "") && notes == OrText(data.notes, "")
    {
      id := OrText(data.id, freshId);
      name := data.name;
      charges := Normalize(data.charges);
      var condition := OrText(data.resetCondition, "long_rest");
      resetCondition := condition;
      resetType := ResetTypeOf(condition);
      recoveryType := ParseRecovery(data.recoveryType);
      recoveryAmount := data.recoveryAmount;
      description := OrText(data.description, "");
      notes := OrText(data.notes, "");
    }

    /** `canUse(amount)`. */
    predicate CanUse(amount: int)
      reads this
      ensures CanUse(amount) <==> Spent(charges, amount).current >= 0
      ensures CanUse(amount) && InRange(charges) && amount >= 0 ==> InRange(Spent(charges, amount))
    {
      charges.current >= amount
    }

    /**
     * `use(amount)`: spends exactly `amount` charges when that many are
     * left and reports whether it did; otherwise changes nothing.
     */
    method Use(amount: int) returns (ok: bool)
      modifies this`charges
      ensures ok == old(CanUse(amount))
      ensures charges == if ok then Spent(old(charges), amount) else old(charges)
      ensures charges.max == old(charges.max)
      ensures old(InRange(charges)) && amount >= 0 ==> InRange(charges)
    {
      if charges.current >= amount {
        charges := charges.(current := charges.current - amount);
        ok := true;
      } else {
        ok := false;
      }
    }

    /** `recover()`: applies the recovery policy to the charges. */
    method Recover()
      modifies this`charges
      ensures charges == Recovered(old(charges), recoveryType)
      ensures old(InRange(charges)) && NonNegative(recoveryType) ==> InRange(charges)
    {
      match recoveryType
      case Full =>
        charges := charges.(current := charges.max);
      case Dice =>
        var recovered := CeilHalf(charges.max);
        charges := charges.(current := Min(charges.max, charges.current + recovered));
      case Fixed(n) =>
        charges := charges.(current := Min(charges.max, charges.current + n));
      case Unrecognised =>
    }
  }
}
