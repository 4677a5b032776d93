# keeper core, in Dafny

A model of the in-memory core of *keeper*, a Dungeons & Dragons table
assistant (`src/models/core.js`). It has three entities and two broadcasts.

- **Consumable**: a pool of charges (spell slots, per-rest abilities,
  limited-use items) with:
  - a reset condition (`long_rest`, `short_rest`, `dawn`, `dusk`, anything else);
  - a derived reset type (rest, time, never);
  - a recovery policy (full, the "dice" placeholder `ceil(max/2)`, a fixed number).
- **Character**: a player character, an enemy or a lair actor. It has hit
  points, armour class, condition labels and the consumables it owns.
- **Combat**: the initiative tracker. Participants are kept sorted by
  initiative (highest first, ties in arrival order), with a round and turn
  cursor and an inactive → active → inactive lifecycle.
- **triggerRest / triggerTimeRecovery**: apply one rest or time event to
  every character of a list.

Each entity the code mutates in place is a `class` (`Consumables.Consumable`,
`Characters.Character`, `Combats.Combat`). Fields that are never reassigned
after construction are `const`.

Every mutating method is specified against a pure function:

| method | specified by |
|---|---|
| `use` | `Spent` |
| `recover` | `Recovered` |
| `takeDamage` | `Lowered` |
| `heal` | `Raised` |
| conditions | `WithCondition` / `WithoutCondition` |
| sort | `Insert` / `SortDesc` (insertion sort, which is stable) |
| turns | `NextTurnOf` |
| rest sweeps | `AfterSweep` |

The properties are proved about those functions. They include:

- the sort is a stable permutation;
- adding to a sorted list is a single insertion;
- `n` turns from the first turn of a round start the next round;
- a sweep recovers exactly the consumables it selects.

Module layout:

- `Wrappers`: `Option`.
- `Defaults`: JavaScript's `x || fallback` on constructor inputs.
- `Seqs`: `Filter`, `NoDup`.
- `Pools`: the `{current, max}` counter.
- `Consumables`, `Characters`, `Combats`: the three entities.
- `Recovery`: the broadcasts.
- `Scenarios`: the repository's usage example and three small scenarios, proved from the model's definitions and contracts.

Two behaviours of the code that the model follows as written:

- `getConsumable` is a single `find` that matches id *or* name on each entry. It is not "id first, then name".
- An `hp`/`charges` object with only one of `current`/`max` does not derive the missing part (see Left out).

Constructor quirks kept from the code:

- a bare number gives `current = max = n`;
- a missing or zero value gives `1/1`;
- `ac: 0` becomes 10;
- a `recoveryType` of `0` or `""` is `'full'`;
- nothing clamps `current <= max` at construction.

## Model

| member | source | states |
|---|---|---|
| Defaults.OrText | src/models/core.js:23-24 | JavaScript's falsy fallback on text: the result is the fallback or the given text; a non-empty text is kept; a non-empty fallback never gives `""` |
| Defaults.OrNumber | src/models/core.js:86 | the `ac` default of 10: the fallback or the given number; a non-zero number is kept; the result is never 0 |
| Pools.Normalize | src/models/core.js:10-13 | scalar or missing input gives `current == max`; a pair is kept as given; zero becomes 1; the pool is in range iff a scalar is non-negative or a pair has `0 < current <= max` |
| Pools.CeilHalf | src/models/core.js:50 | `Math.ceil(m/2)`: the least `r` with `m <= 2r <= m+1` |
| Pools.Spent | src/models/core.js:29-31 | `current` drops by exactly `amount`, `max` unchanged, range kept when `0 <= amount <= current` |
| Pools.Lowered | src/models/core.js:107 | damage: `max` unchanged, result `>= 0`, 0 iff damage reaches current, otherwise exactly `current - amount`; range kept |
| Pools.Raised | src/models/core.js:113 | healing/recovery: `max` unchanged, never above max, equals max iff `current + amount >= max`, otherwise exactly `current + amount`; range kept |
| Consumables.ResetTypeOf | src/models/core.js:68-75 | rest-based iff `long_rest`/`short_rest`, time-based iff `dawn`/`dusk`, otherwise never |
| Consumables.ParseRecovery | src/models/core.js:20 | the `recoveryType`, defaulted to `'full'` and read as `recover`'s switch does: full iff absent, `""`, `'full'` or 0; dice iff `'dice'`; a fixed amount iff a non-zero number |
| Consumables.Recovered | src/models/core.js:42-60 | full sets `current = max`; dice gives `Raised(p, ceil(max/2))` and a number `n` gives `Raised(p, n)` (both capped at max); an unrecognised type changes nothing; `max` unchanged; range kept and charges never drop for non-negative policies; dice leaves at least half of max |
| Consumables.DiceTwiceRefills | src/models/core.js:47-52 | two placeholder dice recoveries refill any in-range pool |
| Consumables.Consumable.constructor | src/models/core.js:7-25 | every field is the falsy-defaulted input; `resetType` is derived from `resetCondition` |
| Consumables.Consumable.CanUse | src/models/core.js:37-39 | usable iff spending `amount` would leave a non-negative count; spending a usable non-negative amount keeps the pool in range |
| Consumables.Consumable.Use | src/models/core.js:28-39 | returns true iff `canUse(amount)` held; then charges are `Spent`, otherwise unchanged; `max` never changes; range kept for `amount >= 0` |
| Consumables.Consumable.Recover | src/models/core.js:42-60 | charges become `Recovered(old charges, recoveryType)`; range kept for non-negative policies |
| Characters.WithCondition | src/models/core.js:117-121 | the label is present afterwards; a label already present leaves the list unchanged, whatever repeats it holds; otherwise exactly that label is appended (the old list is a prefix, at most one entry more); no duplicates are created |
| Characters.AddConditionIdempotent | src/models/core.js:117-121 | adding a condition twice equals adding it once |
| Characters.WithoutCondition | src/models/core.js:124-126 | the label is gone, every other label stays, absent label is a no-op, no duplicates are created |
| Characters.WithoutConditionLaws | src/models/core.js:124-126 | the filter works label by label: removal from a concatenation is the concatenation of the removals, and one label is kept iff it differs (this fixes order and repeats) |
| Characters.WithoutId | src/models/core.js:134-136 | every entry with that id is dropped, every other entry stays, absent id is a no-op, no duplicates are created |
| Characters.WithoutIdLaws | src/models/core.js:134-136 | the filter works entry by entry: removal from a concatenation is the concatenation of the removals, and one entry is kept iff its id differs (this fixes order and repeats) |
| Characters.FirstMatch | src/models/core.js:139-141 | `find`: the index of the first entry whose id or name matches, or none iff no entry matches |
| Characters.AfterSweep | src/models/core.js:150-165 | a selected consumable gets `Recovered`, every other one is unchanged, `max` unchanged, range kept |
| Characters.SweepSelectsByCondition | src/models/core.js:150-165 | a rest sweep selects exactly the consumables whose condition is that rest (`long_rest`/`short_rest`); a time sweep exactly those whose condition is that event (`dawn`/`dusk`) |
| Characters.Character.constructor | src/models/core.js:80-102 | normalised fields; a lair actor has no hp and no ac, any other gets normalised hp and `ac` defaulted to 10; conditions and consumables start empty |
| Characters.Character.TakeDamage | src/models/core.js:105-108 | no-op for a lair actor or missing hp, otherwise hp becomes `Lowered`; hp range kept for non-negative damage |
| Characters.Character.Heal | src/models/core.js:111-114 | no-op for a lair actor or missing hp, otherwise hp becomes `Raised`; hp range kept for non-negative healing |
| Characters.Character.IsDown | src/models/core.js:173-176 | false for a lair actor, otherwise true iff hp is present and at or below 0 (exactly 0 when in range) |
| Characters.Character.AddCondition | src/models/core.js:117-121 | the conditions become `WithCondition` of the old ones |
| Characters.Character.RemoveCondition | src/models/core.js:124-126 | the conditions become `WithoutCondition` of the old ones |
| Characters.Character.AddConsumable | src/models/core.js:129-131 | the consumable is appended |
| Characters.Character.RemoveConsumable | src/models/core.js:134-136 | the list becomes `WithoutId` of the old one |
| Characters.Character.GetConsumable | src/models/core.js:139-141 | none iff no entry matches; otherwise an entry that matches and has no match before it |
| Characters.Character.UseConsumable | src/models/core.js:144-147 | false with nothing changed when nothing matches; otherwise the match's `use(amount)` result and charges; every other consumable is unchanged |
| Characters.Character.Rest | src/models/core.js:150-156 | each owned consumable's charges become `AfterSweep` for a rest of that type |
| Characters.Character.TimeRecovery | src/models/core.js:159-165 | each owned consumable's charges become `AfterSweep` for that time event |
| Characters.Character.RecoverWhere | src/models/core.js:151-155 | the `forEach` loop: each consumable's charges become `AfterSweep` of its charges before the loop |
| Characters.DisplayColor | src/models/core.js:179-186 | grey iff the type is not pc, enemy or lair |
| Combats.InsertionPoint | src/models/core.js:218 | the newcomer's slot: every entry before it has initiative at least the newcomer's, the entry at it has less |
| Combats.InsertSplices | src/models/core.js:218 | stable insertion splices the newcomer in at its insertion point; nothing else moves |
| Combats.InsertMultiset | src/models/core.js:218 | insertion adds exactly the newcomer |
| Combats.InsertSorted | src/models/core.js:218 | insertion into a sorted list keeps it sorted |
| Combats.SortDesc | src/models/core.js:217-219 | the result is a permutation of the input, sorted by descending initiative |
| Combats.SortStable | src/models/core.js:217-219 | for every initiative value, the participants holding it keep their relative order (stability) |
| Combats.SortSortedIsIdentity | src/models/core.js:217-219 | sorting an already sorted list changes nothing |
| Combats.AppendThenSort | src/models/core.js:207-208 | push then sort on a sorted list is a single insertion, after every entry with initiative at least the newcomer's |
| Combats.WithoutCharacter | src/models/core.js:212-214 | no record of that character is left; every other record stays; sortedness is kept |
| Combats.WithoutCharacterLaws | src/models/core.js:212-214 | the filter works record by record: removal from a concatenation is the concatenation of the removals, and one record is kept iff its character id differs (this fixes order and repeats) |
| Combats.NewRound | src/models/core.js:250-253 | round + 1, turn index 0 |
| Combats.NextTurnOf | src/models/core.js:238-247 | no-op when inactive; when active the index goes up by one while index + 1 is below n, and the round goes up by one (index 0) exactly when index + 1 reaches n, an index left past the end included; an in-range index stays in range |
| Combats.FullRound | src/models/core.js:238-253 | with n >= 1 participants, n turns from index 0 of round R reach index 0 of round R + 1 |
| Combats.Entries | src/models/core.js:262-271 | one entry per participant, in order |
| Combats.Combat.constructor | src/models/core.js:191-197 | no participants, round 0, index 0, inactive |
| Combats.Combat.AddCharacter | src/models/core.js:200-209 | participants become the sorted push of an active record (a stable insertion); still sorted; the cursor is untouched |
| Combats.Combat.RemoveCharacter | src/models/core.js:212-214 | participants become `WithoutCharacter`; still sorted; round, index and flag untouched |
| Combats.Combat.SortByInitiative | src/models/core.js:217-219 | participants become `SortDesc` of the old list (a loop of stable insertions) |
| Combats.Combat.StartCombat | src/models/core.js:222-229 | false and no change iff there are no participants; otherwise active, round 1, index 0, and the first participant is current |
| Combats.Combat.CurrentCharacter | src/models/core.js:232-235 | a character iff active and the index is in range, and then the one at the index; none when inactive or empty |
| Combats.Combat.NextTurn | src/models/core.js:238-247 | the cursor becomes `NextTurnOf` of the old cursor |
| Combats.Combat.NextRound | src/models/core.js:250-253 | the cursor becomes `NewRound` of the old cursor |
| Combats.Combat.EndCombat | src/models/core.js:256-258 | only the flag is cleared; round and index stay |
| Combats.Combat.InitiativeOrder | src/models/core.js:261-272 | one entry per participant in order, carrying its initiative and name; active iff the record is active and the character is not down; a lair entry keeps the record's flag |
| Recovery.TriggerRest | src/models/core.js:283-287 | every consumable of every character in the list gets `AfterSweep` for that rest type |
| Recovery.TriggerTimeRecovery | src/models/core.js:289-293 | every consumable of every character in the list gets `AfterSweep` for that time event |
| Recovery.Sweep | src/models/core.js:284-286 | the `forEach` over the characters: after the loop every consumable has been swept exactly once |
| Scenarios.ArrivalOrder | examples/basic-usage.js:39-42 | initiatives arriving as 17, 22, 12, 20 are held as 22, 20, 17, 12 |
| Scenarios.InitiativeWalkthrough | examples/basic-usage.js:36-77 | the order is 22, 20, 17, 12; the initiative-22 character is current at the start; after four turns it is round 2 with that character current again |
| Scenarios.Encounter | examples/basic-usage.js:39-77 | the same walk-through for any four characters |
| Scenarios.DamageAndHeal | examples/basic-usage.js:58-59 | an 85 hp enemy takes 25 damage and has 60 left; healing 100 stops at 85 |
| Scenarios.StrandedTurn | src/models/core.js:212-247 | with two combatants and the turn on the second, removing it leaves the combat active with index 1 and one record, so there is no current character; the next turn wraps to round 2, index 0 |
| Scenarios.ShortRestAbility | src/models/core.js:283-287 | a one-charge short-rest ability: use empties it, a short rest refills it, a long rest after re-use leaves it empty |

## Left out

- `generateId` (random ids): ids are constructor parameters.
- `getDisplayString`, `getConsumablesDisplay` and the string fields of `getInitiativeOrder` are presentation and need integer-to-text conversion. `Combats.Combat.InitiativeOrder` carries hp as an optional pool and conditions as a list, and omits the consumables text.
- `src/database/repository.js` and `src/database/setup.js` are not part of this model (asynchronous SQLite persistence). Neither is the console output of the examples.
- An `hp` or `charges` object with a zero or missing `current` or `max` is outside the model. JavaScript's `||` would store the whole object as the number, which cannot be represented here. The constructors require `Pools.Normalizable` for those inputs.
- Inputs of other JavaScript types are not modelled: a `recoveryType` that is a boolean or an object, `NaN`, or non-integer amounts.
- Default arguments (`amount = 1` in `use`, `canUse` and `useConsumable`): callers pass the amount explicitly.
- `recoveryAmount` is stored but, as in the code, never used by `recover`.
- Characters.Character.Rest: requires that no consumable object appears twice in the list. The code does not check this; with a repeated object it would recover that object twice.
- Characters.Character.TimeRecovery: the same no-repeat requirement as `rest`.
- Characters.Character.RecoverWhere: the same no-repeat requirement as `rest`.
- Recovery.TriggerRest: requires `Recovery.Unshared`, that no consumable object is owned twice among the characters. With sharing, the code recovers a shared object once per owner.
- Recovery.TriggerTimeRecovery: the same `Recovery.Unshared` requirement as `triggerRest`.
- Recovery.Sweep: the same `Recovery.Unshared` requirement as `triggerRest`.
- Characters.Character.TakeDamage: a negative amount is modelled literally (it heals); the hp range is stated as kept only for non-negative amounts.
- Characters.Character.Heal: a negative amount is modelled literally (it damages); the hp range is stated as kept only for non-negative amounts.
- Consumables.Consumable.Use: a negative amount is modelled literally (it adds charges); the charge range is stated as kept only for non-negative amounts.
