/**
 * `triggerRest` and `triggerTimeRecovery`: one recovery sweep broadcast to
 * every character of a list.
 */
module Recovery {
  import opened Seqs
  import opened Pools
  import opened Consumables
  import opened Characters

  /**
   * Every consumable is owned once: no consumable object appears at two
   * places among the characters' lists (the ownership rule of the data model).
   */
  ghost predicate Unshared(characters: seq<Character>)
    reads characters
  {
    forall a, i, b, j ::
      0 <= a < |characters| && 0 <= i < |characters[a].consumables| &&
      0 <= b < |characters| && 0 <= j < |characters[b].consumables| &&
      (a != b || i != j) ==>
        characters[a].consumables[i] != characters[b].consumables[j]
  }

  /** Every consumable owned by a character of the list. */
  ghost function Owned(characters: seq<Character>): set<Consumable>
    reads characters
  {
    set a, i | 0 <= a < |characters| && 0 <= i < |characters[a].consumables| :: characters[a].consumables[i]
  }

  /**
   * What the sweep of the `k`-th character needs: its list has no repeats
   * and shares no consumable with another character.
   */
  lemma {:induction false} OwnerOf(characters: seq<Character>, k: nat)
    requires Unshared(characters) && k < |characters|
    ensures NoDup(characters[k].consumables)
    ensures forall a, i :: 0 <= a < |characters| && a != k && 0 <= i < |characters[a].consumables| ==>
              characters[a].consumables[i] !in characters[k].consumables
  {
  }

  /** The `k`-th character's consumables are among those the sweep may change. */
  lemma {:induction false} ListOwned(characters: seq<Character>, k: nat)
    requires k < |characters|
    ensures forall i :: 0 <= i < |characters[k].consumables| ==> characters[k].consumables[i] in Owned(characters)
  {
  }

  /** `triggerRest`: every character of the list takes a rest of type `restType`. */
  method TriggerRest(characters: seq<Character>, restType: string)
    requires Unshared(characters)
    modifies Owned(characters)
    ensures forall a, i :: 0 <= a < |characters| && 0 <= i < |characters[a].consumables| ==>
              characters[a].consumables[i].charges ==
                AfterSweep(characters[a].consumables[i], RestBased, restType, old(characters[a].consumables[i].charges))
  {
    Sweep(characters, RestBased, restType);
  }

  /** `triggerTimeRecovery`: every character of the list sees the time event `timeCondition`. */
  method TriggerTimeRecovery(characters: seq<Character>, timeCondition: string)
    requires Unshared(characters)
    modifies Owned(characters)
    ensures forall a, i :: 0 <= a < |characters| && 0 <= i < |characters[a].consumables| ==>
              characters[a].consumables[i].charges ==
                AfterSweep(characters[a].consumables[i], TimeBased, timeCondition, old(characters[a].consumables[i].charges))
  {
    Sweep(characters, TimeBased, timeCondition);
  }

  /** The consumable lists of the characters, in order. */
  ghost function Lists(characters: seq<Character>): (r: seq<seq<Consumable>>)
    reads characters
    ensures |r| == |characters|
    ensures forall a :: 0 <= a < |characters| ==> r[a] == characters[a].consumables
  {
    seq(|characters|, a requires 0 <= a < |characters| reads characters => characters[a].consumables)
  }

  /** The `forEach` over the characters shared by both broadcasts. */
  method Sweep(characters: seq<Character>, kind: ResetType, condition: string)
    requires kind == RestBased || kind == TimeBased
    requires Unshared(characters)
    modifies Owned(characters)
    ensures forall a, i :: 0 <= a < |characters| && 0 <= i < |characters[a].consumables| ==>
              characters[a].consumables[i].charges ==
                AfterSweep(characters[a].consumables[i], kind, condition, old(characters[a].consumables[i].charges))
  {
    ghost var lists: seq<seq<Consumable>> := Lists(characters);
    for k := 0 to |characters|
      invariant Lists(characters) == lists
      invariant forall a, i :: 0 <= a < k && 0 <= i < |lists[a]| ==>
                  lists[a][i].charges == AfterSweep(lists[a][i], kind, condition, old(lists[a][i].charges))
      invariant forall a, i :: k <= a < |lists| && 0 <= i < |lists[a]| ==>
                  lists[a][i].charges == old(lists[a][i].charges)
    {
      ListOwned(characters, k);
      SweepOne(characters, lists, k, kind, condition);
    }
  }

  /** One iteration of the sweep: the `k`-th character recovers, every other character is untouched. */
  method SweepOne(characters: seq<Character>, ghost lists: seq<seq<Consumable>>, k: nat, kind: ResetType, condition: string)
    requires kind == RestBased || kind == TimeBased
    requires Unshared(characters) && k < |characters| && Lists(characters) == lists
    modifies characters[k].consumables
    ensures forall i :: 0 <= i < |lists[k]| ==>
              lists[k][i].charges == AfterSweep(lists[k][i], kind, condition, old(lists[k][i].charges))
    ensures forall a, i :: 0 <= a < |lists| && a != k && 0 <= i < |lists[a]| ==>
              lists[a][i].charges == old(lists[a][i].charges)
  {
    OwnerOf(characters, k);
    Broadcast(characters[k], kind, condition);
  }

  /** What the broadcast asks of one character: `rest` for a rest, `timeRecovery` for a time event. */
  method Broadcast(c: Character, kind: ResetType, condition: string)
    requires kind == RestBased || kind == TimeBased
    requires NoDup(c.consumables)
    modifies c.consumables
    ensures forall i :: 0 <= i < |c.consumables| ==>
              c.consumables[i].charges == AfterSweep(c.consumables[i], kind, condition, old(c.consumables[i].charges))
  {
    if kind == RestBased {
      c.Rest(condition);
    } else {
      c.TimeRecovery(condition);
    }
  }
}
