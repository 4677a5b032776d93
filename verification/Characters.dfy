/**
 * A character: a player character, an enemy or a lair pseudo-actor, with
 * hit points, armour class, a set of condition labels and the consumables
 * it owns.
 */
module Characters {
  import opened Wrappers
  import opened Defaults
  import opened Seqs
  import opened Pools
  import opened Consumables

  /** `addCondition`: the condition is appended unless it is already present. */
  function WithCondition(labels: seq<string>, condition: string): (r: seq<string>)
    ensures condition in r
    ensures forall x :: x in r <==> x in labels || x == condition
    ensures |labels| <= |r| && r[..|labels|] == labels
    ensures NoDup(labels) ==> NoDup(r)
    ensures condition in labels ==> r == labels
    ensures |r| <= |labels| + 1
  {
    if condition in labels then labels else labels + [condition]
  }

  /** Adding a condition twice is adding it once. */
  lemma AddConditionIdempotent(labels: seq<string>, condition: string)
    ensures WithCondition(WithCondition(labels, condition), condition) == WithCondition(labels, condition)
  {
  }

  /** `removeCondition`: every occurrence of the condition goes, the others stay in order. */
  function WithoutCondition(labels: seq<string>, condition: string): (r: seq<string>)
    ensures condition !in r
    ensures forall x :: x in r <==> x in labels && x != condition
    ensures condition !in labels ==> r == labels
    ensures NoDup(labels) ==> NoDup(r)
  {
    FilterFacts(labels, OtherLabel(condition));
    Filter(labels, OtherLabel(condition))
  }

  function OtherLabel(condition: string): string -> bool {
    (x: string) => x != condition
  }

  /**
   * `removeCondition` works label by label: on a concatenation it removes
   * from each part, and a single label is kept exactly when it differs.
   * Together these fix the result, order and repeats included.
   */
  lemma {:induction false} WithoutConditionLaws(a: seq<string>, b: seq<string>, x: string, condition: string)
    ensures WithoutCondition(a + b, condition) == WithoutCondition(a, condition) + WithoutCondition(b, condition)
    ensures WithoutCondition([x], condition) == if x != condition then [x] else []
  {
    FilterConcat(a, b, OtherLabel(condition));
    assert [x][1..] == [];
  }

  /** `removeConsumable`: drops exactly the entries with that id, keeping the others in order. */
  function WithoutId(items: seq<Consumable>, consumableId: string): (r: seq<Consumable>)
    ensures forall i :: 0 <= i < |r| ==> r[i].id != consumableId && r[i] in items
    ensures forall i :: 0 <= i < |items| && items[i].id != consumableId ==> items[i] in r
    ensures (forall i :: 0 <= i < |items| ==> items[i].id != consumableId) ==> r == items
    ensures NoDup(items) ==> NoDup(r)
  {
    FilterFacts(items, OtherId(consumableId));
    Filter(items, OtherId(consumableId))
  }

  function OtherId(consumableId: string): Consumable -> bool {
    (c: Consumable) => c.id != consumableId
  }

  /**
   * `removeConsumable` works entry by entry: on a concatenation it removes
   * from each part, and a single entry is kept exactly when its id differs.
   * Together these fix the result, order and repeats included.
   */
  lemma {:induction false} WithoutIdLaws(a: seq<Consumable>, b: seq<Consumable>, x: Consumable, consumableId: string)
    ensures WithoutId(a + b, consumableId) == WithoutId(a, consumableId) + WithoutId(b, consumableId)
    ensures WithoutId([x], consumableId) == if x.id != consumableId then [x] else []
  {
    FilterConcat(a, b, OtherId(consumableId));
    assert [x][1..] == [];
  }

  /** The match `getConsumable` tests, by id or by name. */
  predicate Matches(c: Consumable, identifier: string) {
    c.id == identifier || c.name == identifier
  }

  /** The index `Array.prototype.find` stops at: the first entry matching by id or by name. */
  function FirstMatch(items: seq<Consumable>, identifier: string): (r: Option<nat>)
    ensures r.Some? ==> r.value < |items| && Matches(items[r.value], identifier)
    ensures r.Some? ==> forall j :: 0 <= j < r.value ==> !Matches(items[j], identifier)
    ensures r.None? ==> forall j :: 0 <= j < |items| ==> !Matches(items[j], identifier)
  {
    if items == [] then None
    else if Matches(items[0], identifier) then Some(0)
    else match FirstMatch(items[1..], identifier)
      case None => None
      case Some(k) => Some(k + 1)
  }

  /** Whether a sweep of `kind` for `condition` recovers `c` (the test in `rest` and `timeRecovery`). */
  predicate Triggered(c: Consumable, kind: ResetType, condition: string) {
    c.resetType == kind && c.resetCondition == condition
  }

  /** The charges of `c` after a sweep of `kind` for `condition`, given the charges before. */
  function AfterSweep(c: Consumable, kind: ResetType, condition: string, before: Pool): (r: Pool)
    ensures r.max == before.max
    ensures !Triggered(c, kind, condition) ==> r == before
    ensures Triggered(c, kind, condition) ==> r == Recovered(before, c.recoveryType)
    ensures InRange(before) && NonNegative(c.recoveryType) ==> InRange(r)
  {
    if Triggered(c, kind, condition) then Recovered(before, c.recoveryType) else before
  }

  /**
   * A rest sweep only ever selects a consumable whose condition is that
   * rest, and a time sweep one whose condition is dawn or dusk.
   */
  lemma SweepSelectsByCondition(c: Consumable, condition: string)
    requires c.Valid()
    ensures Triggered(c, RestBased, condition) <==>
              condition == c.resetCondition && (condition == "long_rest" || condition == "short_rest")
    ensures Triggered(c, TimeBased, condition) <==>
              condition == c.resetCondition && (condition == "dawn" || condition == "dusk")
  {
  }

  /** The constructor's argument object. */
  datatype CharacterData = CharacterData(
    id: Option<string>,
    name: string,
    kind: Option<string>,
    ac: Option<int>,
    hp: PoolSpec,
    notes: Option<string>)

  class Character {
    const id: string
    const name: string
    /** `type`: 'pc', 'enemy', 'lair' or any other condition. */
    const kind: string
    const ac: Option<int>
    var hp: Option<Pool>
    var conditions: seq<string>
    var consumables: seq<Consumable>
    const notes: string

    /** A lair actor has neither hit points nor armour class. */
    ghost predicate Valid()
      reads this
    {
      kind == "lair" ==> hp.None? && ac.None?
    }

    /** Hit points, when present, satisfy `0 <= current <= max`. */
    predicate HpInRange()
      reads this
    {
      hp.Some? ==> InRange(hp.value)
    }

    /** `freshId` stands for `generateId()`, used when `data.id` is missing or empty. */
    constructor (data: CharacterData, freshId: string)
      requires OrText(data.kind, "pc") != "lair" ==> Normalizable(data.hp)
      ensures Valid()
      ensures id == OrText(data.id, freshId) && name == data.name && kind == OrText(data.kind, "pc")
      ensures kind == "lair" ==> hp == None && ac == None
      ensures kind != "lair" ==> hp == Some(Normalize(data.hp)) && ac == Some(OrNumber(data.ac, 10))
      ensures conditions == [] && consumables == [] && notes == OrText(data.notes, "")
    {
      var k := OrText(data.kind, "pc");
      id := OrText(data.id, freshId);
      name := data.name;
      kind := k;
      if k == "lair" {
        ac := None;
        hp := None;
      } else {
        ac := Some(OrNumber(data.ac, 10));
        hp := Some(Normalize(data.hp));
      }
      conditions := [];
      consumables := [];
      notes := OrText(data.notes, "");
    }

    /** `takeDamage`: lowers hit points, floored at 0; a no-op for lair actors. */
    method TakeDamage(amount: int)
      requires Valid()
      modifies this`hp
      ensures Valid()
      ensures kind == "lair" ==> hp == old(hp) == None
      ensures hp == if old(hp).None? then None else Some(Lowered(old(hp).value, amount))
      ensures old(HpInRange()) && amount >= 0 ==> HpInRange()
    {
      if kind == "lair" || hp.None? {
        return;
      }
      hp := Some(hp.value.(current := Max(0, hp.value.current - amount)));
    }

    /** `heal`: raises hit points, capped at the maximum; a no-op for lair actors. */
    method Heal(amount: int)
      requires Valid()
      modifies this`hp
      ensures Valid()
      ensures kind == "lair" ==> hp == old(hp) == None
      ensures hp == if old(hp).None? then None else Some(Raised(old(hp).value, amount))
      ensures old(HpInRange()) && amount >= 0 ==> HpInRange()
    {
      if kind == "lair" || hp.None? {
        return;
      }
      hp := Some(hp.value.(current := Min(hp.value.max, hp.value.current + amount)));
    }

    /** `isDown`: never for a lair actor, otherwise when hit points are at or below 0. */
    predicate IsDown()
      reads this
      ensures IsDown() <==> kind != "lair" && hp.Some? && hp.value.current <= 0
      ensures Valid() && HpInRange() && IsDown() ==> hp.value.current == 0
    {
      if kind == "lair" then false else hp.Some? && hp.value.current <= 0
    }

    method AddCondition(condition: string)
      modifies this`conditions
      ensures conditions == WithCondition(old(conditions), condition)
    {
      if condition !in conditions {
        conditions := conditions + [condition];
      }
    }

    method RemoveCondition(condition: string)
      modifies this`conditions
      ensures conditions == WithoutCondition(old(conditions), condition)
    {
      conditions := WithoutCondition(conditions, condition);
    }

    method AddConsumable(c: Consumable)
      modifies this`consumables
      ensures consumables == old(consumables) + [c]
    {
      consumables := consumables + [c];
    }

    method RemoveConsumable(consumableId: string)
      modifies this`consumables
      ensures consumables == WithoutId(old(consumables), consumableId)
    {
      consumables := WithoutId(consumables, consumableId);
    }

    /** `getConsumable`: the first owned consumable whose id or name is `identifier`. */
    function GetConsumable(identifier: string): (r: Option<Consumable>)
      reads this
      ensures r.None? <==> forall j :: 0 <= j < |consumables| ==> !Matches(consumables[j], identifier)
      ensures r.Some? ==> exists i :: 0 <= i < |consumables| && consumables[i] == r.value &&
                            Matches(r.value, identifier) &&
                            forall j :: 0 <= j < i ==> !Matches(consumables[j], identifier)
    {
      match FirstMatch(consumables, identifier)
      case None => None
      case Some(i) => Some(consumables[i])
    }

    /**
     * `useConsumable`: false with no change when nothing matches; otherwise
     * the matched consumable's `use(amount)`, touching no other consumable.
     */
    method UseConsumable(identifier: string, amount: int) returns (ok: bool)
      modifies consumables
      ensures GetConsumable(identifier).None? ==> !ok
      ensures GetConsumable(identifier).Some? ==>
                var c := GetConsumable(identifier).value;
                && ok == (old(c.charges.current) >= amount)
                && c.charges == (if ok then Spent(old(c.charges), amount) else old(c.charges))
      ensures forall d :: d in consumables && Some(d) != GetConsumable(identifier) ==> d.charges == old(d.charges)
    {
      var found := GetConsumable(identifier);
      if found.None? {
        return false;
      }
      ok := found.value.Use(amount);
    }

    /** `rest(restType)`: recovers the rest-based consumables whose condition is `restType`. */
    method Rest(restType: string)
      requires NoDup(consumables)
      modifies consumables
      ensures forall i :: 0 <= i < |consumables| ==>
                consumables[i].charges == AfterSweep(consumables[i], RestBased, restType, old(consumables[i].charges))
    {
      RecoverWhere(RestBased, restType);
    }

    /** `timeRecovery(timeCondition)`: recovers the time-based consumables whose condition is `timeCondition`. */
    method TimeRecovery(timeCondition: string)
      requires NoDup(consumables)
      modifies consumables
      ensures forall i :: 0 <= i < |consumables| ==>
                consumables[i].charges == AfterSweep(consumables[i], TimeBased, timeCondition, old(consumables[i].charges))
    {
      RecoverWhere(TimeBased, timeCondition);
    }

    /** The `forEach` loop shared by `rest` and `timeRecovery`. */
    method RecoverWhere(kind: ResetType, condition: string)
      requires NoDup(consumables)
      modifies consumables
      ensures forall i :: 0 <= i < |consumables| ==>
                consumables[i].charges == AfterSweep(consumables[i], kind, condition, old(consumables[i].charges))
    {
      var n := |consumables|;
      for k := 0 to n
        invariant forall i :: 0 <= i < k ==>
                    consumables[i].charges == AfterSweep(consumables[i], kind, condition, old(consumables[i].charges))
        invariant forall i :: k <= i < n ==> consumables[i].charges == old(consumables[i].charges)
      {
        var c := consumables[k];
        if c.resetType == kind && c.resetCondition == condition {
          c.Recover();
        }
      }
    }
  }

  /** `getDisplayColor`: a fixed colour per known type, grey for any other. */
  function DisplayColor(kind: string): (color: string)
    ensures color == "#757575" <==> kind != "pc" && kind != "enemy" && kind != "lair"
  {
    if kind == "pc" then "#4CAF50"
    else if kind == "enemy" then "#F44336"
    else if kind == "lair" then "#FF9800"
    else "#757575"
  }
}
