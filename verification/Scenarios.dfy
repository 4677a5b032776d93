/**
 * Client code: the walk-through of the repository's basic-usage example and
 * three small scenarios, proved from the model's definitions and contracts.
 */
module Scenarios {
  import opened Wrappers
  import opened Pools
  import opened Consumables
  import opened Characters
  import opened Combats
  import opened Recovery

  function Initiatives(ps: seq<Participant>): (r: seq<int>)
    ensures |r| == |ps| && forall i :: 0 <= i < |ps| ==> r[i] == ps[i].initiative
  {
    if ps == [] then [] else [ps[0].initiative] + Initiatives(ps[1..])
  }

  /** The four insertions of the walk-through, one at a time. */
  lemma {:induction false} ArrivalOrder(p17: Participant, p22: Participant, p12: Participant, p20: Participant)
    requires p17.initiative == 17 && p22.initiative == 22 && p12.initiative == 12 && p20.initiative == 20
    ensures Insert(p17, []) == [p17]
    ensures Insert(p22, [p17]) == [p22, p17]
    ensures Insert(p12, [p22, p17]) == [p22, p17, p12]
    ensures Insert(p20, [p22, p17, p12]) == [p22, p20, p17, p12]
  {
    var two, three := [p22, p17], [p22, p17, p12];
    assert InsertionPoint(p12, two[1..]) == 1;
    InsertSplices(p12, two);
    assert two[..2] + [p12] + two[2..] == three;
    assert InsertionPoint(p20, three[1..]) == 0;
    InsertSplices(p20, three);
    assert three[..1] + [p20] + three[1..] == [p22, p20, p17, p12];
  }

  /** The initiatives of the walk-through's final order. */
  lemma {:induction false} FinalInitiatives(p22: Participant, p20: Participant, p17: Participant, p12: Participant)
    requires p17.initiative == 17 && p22.initiative == 22 && p12.initiative == 12 && p20.initiative == 20
    ensures Initiatives([p22, p20, p17, p12]) == [22, 20, 17, 12]
  {
    var order := Initiatives([p22, p20, p17, p12]);
    assert order[0] == 22 && order[1] == 20 && order[2] == 17 && order[3] == 12;
  }

  /**
   * Initiatives 17, 22, 12 and 20 are kept as 22, 20, 17, 12; combat starts
   * in round 1 with the initiative-22 character, and four turns later round
   * 2 starts with that character again.
   */
  method InitiativeWalkthrough() returns (order: seq<int>, round: int, first: string, again: string)
    ensures order == [22, 20, 17, 12]
    ensures round == 2
    ensures first == "Legolas" && again == "Legolas"
  {
    var aragorn := new Character(CharacterData(None, "Aragorn", Some("pc"), Some(18), Bare(58), None), "a1");
    var legolas := new Character(CharacterData(None, "Legolas", Some("pc"), Some(16), Bare(45), None), "a2");
    var orc := new Character(CharacterData(None, "Orc Chieftain", Some("enemy"), Some(15), Bare(85), None), "a3");
    var cave := new Character(CharacterData(None, "Cave Collapse", Some("lair"), None, Unset, None), "a4");
    var current, next;
    order, round, current, next := Encounter(aragorn, legolas, orc, cave);
    first, again := current.name, next.name;
  }

  /** The combat part of the walk-through, for any four characters. */
  method Encounter(aragorn: Character, legolas: Character, orc: Character, cave: Character)
    returns (order: seq<int>, round: int, first: Character, again: Character)
    ensures order == [22, 20, 17, 12]
    ensures round == 2
    ensures first == legolas && again == legolas
  {
    var combat := Assemble(aragorn, legolas, orc, cave);
    FinalInitiatives(Participant(legolas, 22, true), Participant(cave, 20, true),
                     Participant(aragorn, 17, true), Participant(orc, 12, true));
    order := Initiatives(combat.participants);
    var started := combat.StartCombat();
    first := combat.CurrentCharacter().value;
    FourTurns(combat);
    round := combat.currentRound;
    again := combat.CurrentCharacter().value;
  }

  /** The four `addCharacter` calls of the walk-through on a new combat. */
  method Assemble(aragorn: Character, legolas: Character, orc: Character, cave: Character)
    returns (combat: Combat)
    ensures fresh(combat) && combat.Valid()
    ensures combat.participants == [Participant(legolas, 22, true), Participant(cave, 20, true),
                                    Participant(aragorn, 17, true), Participant(orc, 12, true)]
    ensures combat.Turn() == TurnState(0, 0, false)
  {
    combat := new Combat("c1");
    ArrivalOrder(Participant(aragorn, 17, true), Participant(legolas, 22, true),
                 Participant(orc, 12, true), Participant(cave, 20, true));
    combat.AddCharacter(aragorn, 17);
    combat.AddCharacter(legolas, 22);
    combat.AddCharacter(orc, 12);
    combat.AddCharacter(cave, 20);
  }

  /** Four calls of `nextTurn` in round 1 of a four-participant combat. */
  method FourTurns(combat: Combat)
    requires combat.Turn() == TurnState(1, 0, true) && |combat.participants| == 4
    modifies combat
    ensures combat.participants == old(combat.participants)
    ensures combat.Turn() == TurnState(2, 0, true)
  {
    combat.NextTurn();
    combat.NextTurn();
    combat.NextTurn();
    combat.NextTurn();
  }

  /** An 85 hit-point enemy takes 25 damage (60 left), then healing 100 stops at 85. */
  method DamageAndHeal() returns (afterDamage: int, afterHeal: int)
    ensures afterDamage == 60 && afterHeal == 85
  {
    var orc := new Character(CharacterData(None, "Orc Chieftain", Some("enemy"), Some(15), Bare(85), None), "e1");
    orc.TakeDamage(25);
    afterDamage := orc.hp.value.current;
    orc.Heal(100);
    afterHeal := orc.hp.value.current;
  }

  /** A character holding a single consumable owns it alone. */
  lemma {:induction false} LoneConsumable(hero: Character)
    requires |hero.consumables| == 1
    ensures Unshared([hero])
    ensures forall c :: c in Owned([hero]) ==> c == hero.consumables[0]
  {
  }

  /** `triggerRest` over a party of one character holding one consumable. */
  method RestAlone(hero: Character, ability: Consumable, restType: string)
    requires hero.consumables == [ability]
    modifies ability
    ensures ability.charges == AfterSweep(ability, RestBased, restType, old(ability.charges))
  {
    LoneConsumable(hero);
    TriggerRest([hero], restType);
    assert [hero][0].consumables[0] == ability;
  }

  /**
   * A one-charge short-rest ability: using it empties it, a short rest
   * refills it, and a long rest after spending it again leaves it empty.
   */
  method ShortRestAbility() returns (used: bool, afterUse: int, afterShortRest: int, afterLongRest: int)
    ensures used && afterUse == 0 && afterShortRest == 1 && afterLongRest == 0
  {
    var hero := new Character(CharacterData(None, "Hero", None, None, Bare(30), None), "h1");
    var ability := new Consumable(
      ConsumableData(None, "Second Wind", Pair(1, 1), Some("short_rest"), Absent, None, None, None), "k1");
    assert ability.resetType == RestBased && ability.recoveryType == Full;
    hero.AddConsumable(ability);
    assert hero.GetConsumable("Second Wind") == Some(ability);
    used := hero.UseConsumable("Second Wind", 1);
    afterUse := ability.charges.current;
    RestAlone(hero, ability, "short_rest");
    afterShortRest := ability.charges.current;
    var again := ability.Use(1);
    RestAlone(hero, ability, "long_rest");
    afterLongRest := ability.charges.current;
  }

  /**
   * `removeCharacter` does not move the cursor: with two combatants, the
   * turn on the second, removing it leaves an active combat whose index is
   * past the end, so there is no current character; the next `nextTurn`
   * wraps to index 0 of round 2.
   */
  method StrandedTurn(a: Character, b: Character)
    returns (active: bool, index: int, remaining: int, current: Option<Character>, round: int, nextIndex: int)
    requires a.id != b.id
    ensures active && index == 1 && remaining == 1 && current == None
    ensures round == 2 && nextIndex == 0
  {
    var combat := new Combat("c2");
    var first, second := Participant(a, 10, true), Participant(b, 5, true);
    combat.AddCharacter(a, 10);
    combat.AddCharacter(b, 5);
    assert combat.participants == [first, second];
    var started := combat.StartCombat();
    combat.NextTurn();
    WithoutCharacterLaws([first], [second], first, b.id);
    WithoutCharacterLaws([second], [], second, b.id);
    combat.RemoveCharacter(b.id);
    active, index, remaining := combat.isActive, combat.currentTurnIndex, |combat.participants|;
    current := combat.CurrentCharacter();
    combat.NextTurn();
    round, nextIndex := combat.currentRound, combat.currentTurnIndex;
  }
}
