/**
 * The combat tracker: participants kept in initiative order (highest first,
 * ties in insertion order), a round / turn cursor, and the
 * inactive -> active -> inactive lifecycle.
 */
module Combats {
  import opened Wrappers
  import opened Seqs
  import opened Pools
  import opened Characters

  /** A combatant record: a non-owning reference to the character, its initiative and its flag. */
  datatype Participant = Participant(character: Character, initiative: int, isActive: bool)

  /** Highest initiative first. */
  predicate SortedByInitiative(ps: seq<Participant>) {
    forall i, j :: 0 <= i < j < |ps| ==> ps[i].initiative >= ps[j].initiative
  }

  /** The participants with initiative `k`, in order: what a stable sort must not reorder. */
  function WithInitiative(ps: seq<Participant>, k: int): seq<Participant> {
    Filter(ps, AtInitiative(k))
  }

  function AtInitiative(k: int): Participant -> bool {
    (p: Participant) => p.initiative == k
  }

  /** When every initiative is below `k`, nobody has initiative `k`. */
  lemma {:induction false} NoneAtInitiative(ps: seq<Participant>, k: int)
    requires forall i :: 0 <= i < |ps| ==> ps[i].initiative < k
    ensures WithInitiative(ps, k) == []
  {
    if ps != [] {
      NoneAtInitiative(ps[1..], k);
    }
  }

  /** How many leading entries have initiative at least `x`'s. */
  function InsertionPoint(x: Participant, ps: seq<Participant>): (k: nat)
    ensures k <= |ps|
    ensures forall i :: 0 <= i < k ==> ps[i].initiative >= x.initiative
    ensures k < |ps| ==> ps[k].initiative < x.initiative
  {
    if ps == [] || ps[0].initiative < x.initiative then 0 else 1 + InsertionPoint(x, ps[1..])
  }

  /** One step of a stable insertion sort: `x` goes after every entry with initiative at least its own. */
  function Insert(x: Participant, ps: seq<Participant>): (r: seq<Participant>)
    ensures |r| == |ps| + 1
  {
    if ps == [] then [x]
    else if ps[0].initiative >= x.initiative then [ps[0]] + Insert(x, ps[1..])
    else [x] + ps
  }

  /** The newcomer is spliced in at its insertion point; nothing else moves. */
  lemma {:induction false} InsertSplices(x: Participant, ps: seq<Participant>)
    ensures var k := InsertionPoint(x, ps); Insert(x, ps) == ps[..k] + [x] + ps[k..]
  {
    if ps != [] && ps[0].initiative >= x.initiative {
      var rest := ps[1..];
      var k := InsertionPoint(x, rest);
      InsertSplices(x, rest);
      assert ps[..k + 1] == [ps[0]] + rest[..k];
      assert ps[k + 1..] == rest[k..];
    }
  }

  /** Where each entry of `Insert(x, ps)` comes from. */
  lemma {:induction false} InsertAt(x: Participant, ps: seq<Participant>, i: nat)
    requires i <= |ps|
    ensures var k := InsertionPoint(x, ps);
      Insert(x, ps)[i] == if i < k then ps[i] else if i == k then x else ps[i - 1]
  {
    InsertSplices(x, ps);
  }

  /** Inserting adds exactly the newcomer. */
  lemma {:induction false} InsertMultiset(x: Participant, ps: seq<Participant>)
    ensures multiset(Insert(x, ps)) == multiset(ps) + multiset{x}
  {
    if ps != [] && ps[0].initiative >= x.initiative {
      var rest := ps[1..];
      InsertMultiset(x, rest);
      assert Insert(x, ps) == [ps[0]] + Insert(x, rest);
      assert ps == [ps[0]] + rest;
      assert multiset(ps) == multiset{ps[0]} + multiset(rest);
    } else if ps != [] {
      assert Insert(x, ps) == [x] + ps;
    }
  }

  /** In a sorted list, every entry from the insertion point on has lower initiative than the newcomer. */
  lemma {:induction false} AfterInsertionPoint(x: Participant, ps: seq<Participant>)
    requires SortedByInitiative(ps)
    ensures forall i :: InsertionPoint(x, ps) <= i < |ps| ==> ps[i].initiative < x.initiative
  {
    var k := InsertionPoint(x, ps);
    forall i | k <= i < |ps| ensures ps[i].initiative < x.initiative {
      assert ps[i].initiative <= ps[k].initiative;
    }
  }

  /** Inserting into a sorted list keeps it sorted. */
  lemma {:induction false} InsertSorted(x: Participant, ps: seq<Participant>)
    requires SortedByInitiative(ps)
    ensures SortedByInitiative(Insert(x, ps))
  {
    var k := InsertionPoint(x, ps);
    var r := Insert(x, ps);
    AfterInsertionPoint(x, ps);
    forall i, j | 0 <= i < j < |r| ensures r[i].initiative >= r[j].initiative {
      InsertAt(x, ps, i);
      InsertAt(x, ps, j);
      if j < k {
        assert r[i] == ps[i] && r[j] == ps[j];
      } else if j == k {
        assert r[i] == ps[i];
      } else if i < k {
        assert r[i] == ps[i] && r[j] == ps[j - 1];
      } else if i == k {
        assert r[j] == ps[j - 1];
      } else {
        assert r[i] == ps[i - 1] && r[j] == ps[j - 1];
      }
    }
  }

  /** `sortByInitiative`: a stable sort by initiative, highest first (insertion of each entry in turn). */
  function SortDesc(ps: seq<Participant>): (r: seq<Participant>)
    ensures |r| == |ps|
    ensures multiset(r) == multiset(ps)
    ensures SortedByInitiative(r)
  {
    if ps == [] then []
    else
      var init, last := ps[..|ps| - 1], ps[|ps| - 1];
      var rest := SortDesc(init);
      InsertSorted(last, rest);
      InsertMultiset(last, rest);
      assert ps == init + [last];
      Insert(last, rest)
  }

  /** Inserting into a sorted list puts `x` after every entry of its initiative, so those keep their order. */
  lemma {:induction false} InsertWithInitiative(x: Participant, ps: seq<Participant>, k: int)
    requires SortedByInitiative(ps)
    ensures WithInitiative(Insert(x, ps), k) == WithInitiative(ps, k) + WithInitiative([x], k)
  {
    if ps == [] {
      assert Insert(x, ps) == [x];
    } else if ps[0].initiative >= x.initiative {
      InsertWithInitiative(x, ps[1..], k);
      InsertBehindHead(x, ps, k);
    } else {
      InsertInFront(x, ps, k);
    }
  }

  /** The step of `InsertWithInitiative` where `x` goes behind the head. */
  lemma {:induction false} InsertBehindHead(x: Participant, ps: seq<Participant>, k: int)
    requires ps != [] && ps[0].initiative >= x.initiative
    requires WithInitiative(Insert(x, ps[1..]), k) == WithInitiative(ps[1..], k) + WithInitiative([x], k)
    ensures WithInitiative(Insert(x, ps), k) == WithInitiative(ps, k) + WithInitiative([x], k)
  {
    var rest, keep := ps[1..], AtInitiative(k);
    var inserted := Insert(x, rest);
    assert Insert(x, ps) == [ps[0]] + inserted;
    FilterConcat([ps[0]], inserted, keep);
    assert ps == [ps[0]] + rest;
    FilterConcat([ps[0]], rest, keep);
    Regroup(WithInitiative(Insert(x, ps), k), WithInitiative(Insert(x, rest), k),
            Filter([ps[0]], keep), WithInitiative(rest, k), WithInitiative([x], k), WithInitiative(ps, k));
  }

  /** The step of `InsertWithInitiative` where `x` goes in front. */
  lemma {:induction false} InsertInFront(x: Participant, ps: seq<Participant>, k: int)
    requires SortedByInitiative(ps)
    requires ps != [] && ps[0].initiative < x.initiative
    ensures WithInitiative(Insert(x, ps), k) == WithInitiative(ps, k) + WithInitiative([x], k)
  {
    assert Insert(x, ps) == [x] + ps;
    FilterConcat([x], ps, AtInitiative(k));
    if x.initiative == k {
      assert forall i :: 0 <= i < |ps| ==> ps[i].initiative <= ps[0].initiative;
      NoneAtInitiative(ps, k);
    } else {
      assert WithInitiative([x], k) == [];
    }
  }

  /**
   * The sort is stable: for every initiative value the participants holding
   * it appear in the sorted list exactly as, and in the order, they did before.
   */
  lemma {:induction false} SortStable(ps: seq<Participant>, k: int)
    ensures WithInitiative(SortDesc(ps), k) == WithInitiative(ps, k)
  {
    if ps != [] {
      var init, last := ps[..|ps| - 1], ps[|ps| - 1];
      assert ps == init + [last];
      SortStable(init, k);
      InsertWithInitiative(last, SortDesc(init), k);
      FilterConcat(init, [last], AtInitiative(k));
    }
  }

  /** Sorting a list that is already in order changes nothing. */
  lemma {:induction false} SortSortedIsIdentity(ps: seq<Participant>)
    requires SortedByInitiative(ps)
    ensures SortDesc(ps) == ps
  {
    if ps != [] {
      var init, last := ps[..|ps| - 1], ps[|ps| - 1];
      assert SortedByInitiative(init);
      SortSortedIsIdentity(init);
      InsertFromEnd(last, init);
      InsertSplices(last, init);
      assert ps == init + [last];
    }
  }

  /** When every entry is at least the newcomer's initiative, it goes last. */
  lemma {:induction false} InsertFromEnd(x: Participant, ps: seq<Participant>)
    requires forall i :: 0 <= i < |ps| ==> ps[i].initiative >= x.initiative
    ensures InsertionPoint(x, ps) == |ps|
  {
    if ps != [] {
      InsertFromEnd(x, ps[1..]);
    }
  }

  /** `addCharacter` on a sorted list: push then sort is a single stable insertion. */
  lemma {:induction false} AppendThenSort(ps: seq<Participant>, x: Participant)
    requires SortedByInitiative(ps)
    ensures SortDesc(ps + [x]) == Insert(x, ps)
  {
    assert (ps + [x])[..|ps|] == ps;
    SortSortedIsIdentity(ps);
  }

  /** `removeCharacter`'s filter: every record of that character goes, the others stay in order. */
  function WithoutCharacter(ps: seq<Participant>, characterId: string): (r: seq<Participant>)
    ensures forall i :: 0 <= i < |r| ==> r[i].character.id != characterId && r[i] in ps
    ensures forall i :: 0 <= i < |ps| && ps[i].character.id != characterId ==> ps[i] in r
    ensures SortedByInitiative(ps) ==> SortedByInitiative(r)
  {
    FilterMembers(ps, OtherCharacter(characterId));
    FilterKeepsSorted(ps, OtherCharacter(characterId));
    Filter(ps, OtherCharacter(characterId))
  }

  function OtherCharacter(characterId: string): Participant -> bool {
    (p: Participant) => p.character.id != characterId
  }

  /**
   * `removeCharacter` works record by record: on a concatenation it removes
   * from each part, and a single record is kept exactly when its character
   * differs. Together these fix the result, order and repeats included.
   */
  lemma {:induction false} WithoutCharacterLaws(a: seq<Participant>, b: seq<Participant>, x: Participant, characterId: string)
    ensures WithoutCharacter(a + b, characterId) == WithoutCharacter(a, characterId) + WithoutCharacter(b, characterId)
    ensures WithoutCharacter([x], characterId) == if x.character.id != characterId then [x] else []
  {
    FilterConcat(a, b, OtherCharacter(characterId));
    assert [x][1..] == [];
  }

  lemma {:induction false} FilterKeepsSorted(ps: seq<Participant>, keep: Participant -> bool)
    ensures SortedByInitiative(ps) ==> SortedByInitiative(Filter(ps, keep))
  {
    if ps != [] && SortedByInitiative(ps) {
      FilterKeepsSorted(ps[1..], keep);
      FilterMembers(ps[1..], keep);
      var rest := Filter(ps[1..], keep);
      forall j | 0 <= j < |rest| ensures ps[0].initiative >= rest[j].initiative {
        assert rest[j] in ps[1..];
      }
    }
  }

  /** The turn cursor: `currentRound`, `currentTurnIndex` and `isActive`. */
  datatype TurnState = TurnState(round: int, index: int, active: bool)

  /** `nextRound`. */
  function NewRound(t: TurnState): (r: TurnState)
    ensures r.round == t.round + 1 && r.index == 0 && r.active == t.active
  {
    TurnState(t.round + 1, 0, t.active)
  }

  /** `nextTurn` with `n` participants: the next index, or index 0 of the next round. */
  function NextTurnOf(t: TurnState, n: int): (r: TurnState)
    ensures !t.active ==> r == t
    ensures r.active == t.active
    ensures r.round == t.round || (r.round == t.round + 1 && r.index == 0)
    ensures t.active && 0 <= t.index < n ==> 0 <= r.index < n
    ensures r.round == t.round + 1 <==> t.active && t.index + 1 >= n
    ensures t.active && t.index + 1 < n ==> r.index == t.index + 1
  {
    if !t.active then t
    else if t.index + 1 >= n then NewRound(t)
    else t.(index := t.index + 1)
  }

  /** `k` calls of `nextTurn`. */
  function TurnsAfter(t: TurnState, n: int, k: nat): TurnState {
    if k == 0 then t else NextTurnOf(TurnsAfter(t, n, k - 1), n)
  }

  lemma {:induction false} TurnsWithinRound(round: int, n: nat, k: nat)
    requires k < n
    ensures TurnsAfter(TurnState(round, 0, true), n, k) == TurnState(round, k, true)
  {
    if k > 0 {
      TurnsWithinRound(round, n, k - 1);
    }
  }

  /**
   * With `n >= 1` participants, `n` calls of `nextTurn` from the first turn
   * of round `R` reach the first turn of round `R + 1`.
   */
  lemma FullRound(round: int, n: nat)
    requires n >= 1
    ensures TurnsAfter(TurnState(round, 0, true), n, n) == TurnState(round + 1, 0, true)
  {
    TurnsWithinRound(round, n, n - 1);
  }

  /** One line of `getInitiativeOrder` without the display strings. */
  datatype OrderEntry = OrderEntry(
    name: string, kind: string, initiative: int, hp: Option<Pool>,
    conditions: seq<string>, isActive: bool, color: string)

  function Entry(p: Participant): OrderEntry
    reads p.character
  {
    OrderEntry(p.character.name, p.character.kind, p.initiative, p.character.hp,
               p.character.conditions, p.isActive && !p.character.IsDown(),
               DisplayColor(p.character.kind))
  }

  function Entries(ps: seq<Participant>): (r: seq<OrderEntry>)
    reads set i | 0 <= i < |ps| :: ps[i].character
    ensures |r| == |ps|
    ensures forall i :: 0 <= i < |ps| ==> r[i] == Entry(ps[i])
  {
    if ps == [] then [] else [Entry(ps[0])] + Entries(ps[1..])
  }

  class Combat {
    const id: string
    var participants: seq<Participant>
    var currentRound: int
    var currentTurnIndex: int
    var isActive: bool

    /** Participants are always in initiative order. */
    ghost predicate Valid()
      reads this
    {
      SortedByInitiative(participants)
    }

    function Turn(): TurnState
      reads this
    {
      TurnState(currentRound, currentTurnIndex, isActive)
    }

    /** `id` stands for `generateId()`. */
    constructor (id: string)
      ensures Valid()
      ensures this.id == id && participants == []
      ensures Turn() == TurnState(0, 0, false)
    {
      this.id := id;
      participants := [];
      currentRound := 0;
      currentTurnIndex := 0;
      isActive := false;
    }

    /**
     * `addCharacter`: pushes an active record and re-sorts, which puts the
     * newcomer after every entry whose initiative is at least its own. The
     * cursor is not adjusted.
     */
    method AddCharacter(character: Character, initiative: int)
      requires Valid()
      modifies this`participants
      ensures Valid()
      ensures participants == SortDesc(old(participants) + [Participant(character, initiative, true)])
      ensures participants == Insert(Participant(character, initiative, true), old(participants))
      ensures Turn() == old(Turn())
    {
      var newcomer := Participant(character, initiative, true);
      participants := participants + [newcomer];
      SortByInitiative();
      AppendThenSort(old(participants), newcomer);
    }

    /** `removeCharacter`: filters out that character's records; the cursor is not adjusted. */
    method RemoveCharacter(characterId: string)
      requires Valid()
      modifies this`participants
      ensures Valid()
      ensures participants == WithoutCharacter(old(participants), characterId)
      ensures Turn() == old(Turn())
    {
      participants := WithoutCharacter(participants, characterId);
    }

    /** `sortByInitiative`: `Array.prototype.sort`, which is stable, by descending initiative. */
    method SortByInitiative()
      modifies this`participants
      ensures participants == SortDesc(old(participants))
      ensures Valid()
    {
      var ps := participants;
      var sorted: seq<Participant> := [];
      for i := 0 to |ps|
        invariant sorted == SortDesc(ps[..i])
      {
        assert ps[..i + 1][..i] == ps[..i];
        sorted := Insert(ps[i], sorted);
      }
      assert ps[..|ps|] == ps;
      assert SortedByInitiative(sorted);
      participants := sorted;
    }

    /** `startCombat`: false with no change when nobody takes part; otherwise round 1, first turn. */
    method StartCombat() returns (started: bool)
      modifies this`currentRound, this`currentTurnIndex, this`isActive
      ensures started == (|participants| > 0)
      ensures Turn() == if started then TurnState(1, 0, true) else old(Turn())
      ensures started ==> CurrentCharacter() == Some(participants[0].character)
    {
      if |participants| == 0 {
        return false;
      }
      isActive := true;
      currentRound := 1;
      currentTurnIndex := 0;
      started := true;
    }

    /** `getCurrentCharacter`: absent when inactive, empty, or when the cursor is out of range. */
    function CurrentCharacter(): (r: Option<Character>)
      reads this
      ensures r.Some? <==> isActive && 0 <= currentTurnIndex < |participants|
      ensures r.Some? ==> r.value == participants[currentTurnIndex].character
      ensures !isActive || participants == [] ==> r == None
    {
      if !isActive || |participants| == 0 then None
      else if 0 <= currentTurnIndex < |participants| then Some(participants[currentTurnIndex].character)
      else None
    }

    /** `nextTurn`. */
    method NextTurn()
      modifies this`currentRound, this`currentTurnIndex
      ensures Turn() == NextTurnOf(old(Turn()), |participants|)
    {
      if !isActive {
        return;
      }
      currentTurnIndex := currentTurnIndex + 1;
      if currentTurnIndex >= |participants| {
        NextRound();
      }
    }

    /** `nextRound`. */
    method NextRound()
      modifies this`currentRound, this`currentTurnIndex
      ensures Turn() == NewRound(old(Turn()))
    {
      currentRound := currentRound + 1;
      currentTurnIndex := 0;
    }

    /** `endCombat`: only the flag changes; round and turn index stay as they were. */
    method EndCombat()
      modifies this`isActive
      ensures Turn() == old(Turn()).(active := false)
    {
      isActive := false;
    }

    /** `getInitiativeOrder`, in participant order; a record shows as active unless its character is down. */
    function InitiativeOrder(): (r: seq<OrderEntry>)
      reads this, set i | 0 <= i < |participants| :: participants[i].character
      ensures |r| == |participants|
      ensures forall i :: 0 <= i < |r| ==>
                r[i].initiative == participants[i].initiative &&
                r[i].name == participants[i].character.name &&
                (r[i].isActive <==> participants[i].isActive && !participants[i].character.IsDown())
      ensures forall i :: 0 <= i < |r| && participants[i].character.kind == "lair" ==>
                r[i].isActive == participants[i].isActive
    {
      Entries(participants)
    }
  }

}
