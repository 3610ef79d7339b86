/**
 * The two `updateCombat` hooks of shinzo.mjs, as pure transitions over the
 * actors taking part in a combat:
 *   - periodic damage on the actor whose turn starts (GM only);
 *   - the duration countdown: turns on the combatant whose turn ended,
 *     rounds on every combatant when a new round starts.
 * Dice totals are parameters; every awaited update is a sequential step.
 */
module CombatHooks {
  import opened Wrappers
  import opened ActiveEffects

  /** The part of an actor the hooks read and write. */
  datatype ActorState = ActorState(health: int, effects: seq<Effect>)

  /** Actors by id. */
  type World = map<string, ActorState>

  /** A combatant and the id of its actor, if it still has one. */
  datatype Combatant = Combatant(id: string, actor: Option<string>)

  /** The combat: its combatants in turn order and the previous/current turn's combatant ids. */
  datatype Combat = Combat(combatants: seq<Combatant>, previous: Option<string>, current: Option<string>)

  /** Which keys an update carries (`update.turn !== undefined`, `update.round !== undefined`). */
  datatype CombatUpdate = CombatUpdate(hasTurn: bool, hasRound: bool)

  // ---------------------------------------------------------------------------
  // Lookups

  /** `combat.combatants.get(id)`: the first combatant with that id. */
  function FindCombatant(cs: seq<Combatant>, id: Option<string>): (r: Option<Combatant>)
    ensures r.Some? ==> r.value in cs && id == Some(r.value.id)
    ensures r.None? ==> id.None? || forall c :: c in cs ==> Some(c.id) != id
  {
    if id.None? || cs == [] then None
    else if Some(cs[0].id) == id then Some(cs[0])
    else FindCombatant(cs[1..], id)
  }

  /** `combatant.actor`: the actor id when the actor still exists. */
  function ActorIdOf(w: World, c: Option<Combatant>): (r: Option<string>)
    ensures r.Some? ==> r.value in w && c.Some? && c.value.actor == r
  {
    if c.Some? && c.value.actor.Some? && c.value.actor.value in w then c.value.actor else None
  }

  // ---------------------------------------------------------------------------
  // Periodic damage

  /** The damage-over-time effects, in the order the hook checks them. */
  datatype DamageTag = Electrise | Enflamme | Gelure | Saignement | SaignementStack2 | Hemorragie

  const DamageOrder: seq<DamageTag> :=
    [Electrise, Enflamme, Gelure, Saignement, SaignementStack2, Hemorragie]

  /** The effect name each tag is found by. */
  function TagName(t: DamageTag): string {
    match t
    case Electrise => "Electrisé"
    case Enflamme => "Enflammé"
    case Gelure => "Gelure"
    case Saignement => "Saignement"
    case SaignementStack2 => "Saignement : 2nd stack"
    case Hemorragie => "Hémorragie"
  }

  /** The size of the die rolled for each tag. */
  function Die(t: DamageTag): nat {
    match t
    case Electrise => 2
    case Enflamme => 4
    case Gelure => 4
    case Saignement => 2
    case SaignementStack2 => 2
    case Hemorragie => 4
  }

  /** `actor.effects.find(e => e.name === name)`. */
  function FindByName(es: seq<Effect>, name: string): (r: Option<Effect>)
    ensures r.Some? ==> r.value in es && r.value.name == name
    ensures r.None? <==> forall e :: e in es ==> e.name != name
  {
    if es == [] then None
    else if es[0].name == name then Some(es[0])
    else FindByName(es[1..], name)
  }

  predicate Present(es: seq<Effect>, t: DamageTag) {
    FindByName(es, TagName(t)).Some?
  }

  /** The damage the hook deals, summed over the tags present (reference definition). */
  function Loss(es: seq<Effect>, tags: seq<DamageTag>, roll: DamageTag -> int): int {
    if tags == [] then 0
    else (if Present(es, tags[0]) then roll(tags[0]) else 0) + Loss(es, tags[1..], roll)
  }

  /** How many of the tags are present, and the sum of their die sizes. */
  function PresentCount(es: seq<Effect>, tags: seq<DamageTag>): nat {
    if tags == [] then 0
    else (if Present(es, tags[0]) then 1 else 0) + PresentCount(es, tags[1..])
  }

  function PresentDice(es: seq<Effect>, tags: seq<DamageTag>): nat {
    if tags == [] then 0
    else (if Present(es, tags[0]) then Die(tags[0]) else 0) + PresentDice(es, tags[1..])
  }

  /** The hook's sequence of `health = health - damage` updates, one per present tag. */
  function ApplyDamage(health: int, es: seq<Effect>, tags: seq<DamageTag>, roll: DamageTag -> int): (h: int)
    ensures h == health - Loss(es, tags, roll)
    decreases tags
  {
    if tags == [] then health
    else
      var h1 := if Present(es, tags[0]) then health - roll(tags[0]) else health;
      ApplyDamage(h1, es, tags[1..], roll)
  }

  /** With every die in [1, n], the loss lies between the number of tags present and
      the sum of their die sizes; nothing clamps health, so it can go negative. */
  lemma {:induction false} LossBounds(es: seq<Effect>, tags: seq<DamageTag>, roll: DamageTag -> int)
    requires forall t :: 1 <= roll(t) <= Die(t)
    ensures PresentCount(es, tags) <= Loss(es, tags, roll) <= PresentDice(es, tags)
  {
    if tags != [] {
      LossBounds(es, tags[1..], roll);
      assert 1 <= roll(tags[0]) <= Die(tags[0]);
    }
  }

  /** No damage-over-time effect, no damage. */
  lemma {:induction false} NoTagNoLoss(es: seq<Effect>, tags: seq<DamageTag>, roll: DamageTag -> int)
    requires forall t :: t in tags ==> !Present(es, t)
    ensures Loss(es, tags, roll) == 0
  {
    if tags != [] {
      assert tags[0] in tags;
      NoTagNoLoss(es, tags[1..], roll);
    }
  }

  /** The first hook: a GM client, on a turn change, damages the current combatant's actor. */
  function DamageHook(w: World, combat: Combat, update: CombatUpdate, isGM: bool,
                      roll: DamageTag -> int): (r: World)
    ensures r.Keys == w.Keys
    ensures forall id :: id in w ==> r[id].effects == w[id].effects
    ensures !isGM || !update.hasTurn ==> r == w
    ensures forall id :: id in w && Some(id) != ActorIdOf(w, FindCombatant(combat.combatants, combat.current))
                         ==> r[id] == w[id]
    ensures var a := ActorIdOf(w, FindCombatant(combat.combatants, combat.current));
            isGM && update.hasTurn && a.Some? ==>
              r[a.value].health == w[a.value].health - Loss(w[a.value].effects, DamageOrder, roll)
  {
    if !(isGM && update.hasTurn) then w
    else
      match ActorIdOf(w, FindCombatant(combat.combatants, combat.current))
      // The source dereferences the missing combatant or actor and throws: nothing changes.
      case None => w
      case Some(id) =>
        var a := w[id];
        w[id := a.(health := ApplyDamage(a.health, a.effects, DamageOrder, roll))]
  }

  // ---------------------------------------------------------------------------
  // Duration countdown

  /** `n - 1` on a counter that is set and positive; any other counter is left alone. */
  function Decrement(c: Counter): (r: Counter)
    ensures c.Some? && c.value > 0 ==> r == Some(c.value - 1)
    ensures !(c.Some? && c.value > 0) ==> r == c
  {
    if c.Some? && c.value > 0 then Some(c.value - 1) else c
  }

  /** One effect on the combatant whose turn ended, read from its duration snapshot.
      `None` means the effect was deleted. */
  function TurnTick(e: Effect, hasRound: bool): (r: Option<Effect>)
    ensures r.None? <==> e.turns == Some(1) || (hasRound && e.rounds == Some(1) && e.turns == Some(0))
    ensures r.Some? ==> r.value == e.(turns := Decrement(e.turns),
                                     rounds := if hasRound then Decrement(e.rounds) else e.rounds)
  {
    var e1 := e.(turns := Decrement(e.turns));
    if e.turns == Some(1) then None
    else if hasRound && e.rounds.Some? && e.rounds.value > 0 then
      if e.rounds.value - 1 == 0 && e.turns == Some(0) then None
      else Some(e1.(rounds := Some(e.rounds.value - 1)))
    else Some(e1)
  }

  /** One effect when a round starts. */
  function RoundTick(e: Effect): (r: Option<Effect>)
    ensures r.None? <==> e.rounds == Some(1) && e.turns == Some(0)
    ensures r.Some? ==> r.value == e.(rounds := Decrement(e.rounds))
  {
    if e.rounds.Some? && e.rounds.value > 0 then
      if e.rounds.value - 1 == 0 && e.turns == Some(0) then None
      else Some(e.(rounds := Some(e.rounds.value - 1)))
    else Some(e)
  }

  /** The turn branch over all effects of one actor, in order. */
  function TurnCountdown(es: seq<Effect>, hasRound: bool): (r: seq<Effect>)
    ensures |r| <= |es|
  {
    if es == [] then []
    else
      var rest := TurnCountdown(es[1..], hasRound);
      match TurnTick(es[0], hasRound)
      case None => rest
      case Some(x) => [x] + rest
  }

  /** The round branch over all effects of one actor, in order. */
  function RoundCountdown(es: seq<Effect>): (r: seq<Effect>)
    ensures |r| <= |es|
  {
    if es == [] then []
    else
      var rest := RoundCountdown(es[1..]);
      match RoundTick(es[0])
      case None => rest
      case Some(x) => [x] + rest
  }

  /** The turn branch keeps exactly the ticked versions of the effects it does not delete. */
  lemma {:induction false} TurnCountdownSurvivors(es: seq<Effect>, hasRound: bool)
    ensures forall e :: e in es && TurnTick(e, hasRound).Some? ==> TurnTick(e, hasRound).value in TurnCountdown(es, hasRound)
    ensures forall x :: x in TurnCountdown(es, hasRound) ==> exists e :: e in es && TurnTick(e, hasRound) == Some(x)
  {
    if es != [] {
      TurnCountdownSurvivors(es[1..], hasRound);
      forall e | e in es
        ensures e == es[0] || e in es[1..]
      {
      }
    }
  }

  /** The round branch keeps exactly the ticked versions of the effects it does not delete. */
  lemma {:induction false} RoundCountdownSurvivors(es: seq<Effect>)
    ensures forall e :: e in es && RoundTick(e).Some? ==> RoundTick(e).value in RoundCountdown(es)
    ensures forall x :: x in RoundCountdown(es) ==> exists e :: e in es && RoundTick(e) == Some(x)
  {
    if es != [] {
      RoundCountdownSurvivors(es[1..]);
      forall e | e in es
        ensures e == es[0] || e in es[1..]
      {
      }
    }
  }

  /** The round branch applied `k` times to one actor's effects. */
  function RepeatRound(es: seq<Effect>, k: nat): seq<Effect>
    decreases k
  {
    if k == 0 then es else RepeatRound(RoundCountdown(es), k - 1)
  }

  /** Number of combatants whose actor is `id`. */
  function Occurrences(cs: seq<Combatant>, id: string): nat {
    if cs == [] then 0
    else (if cs[0].actor == Some(id) then 1 else 0) + Occurrences(cs[1..], id)
  }

  /** The round branch: every combatant's actor in turn, an actor once per combatant it backs. */
  function RoundAll(w: World, cs: seq<Combatant>): (r: World)
    ensures r.Keys == w.Keys
    ensures forall id :: id in w ==> r[id].health == w[id].health
  {
    if cs == [] then w
    else RoundAll(RoundOne(w, cs[0]), cs[1..])
  }

  /** The round branch for one combatant. */
  function RoundOne(w: World, c: Combatant): (r: World)
    ensures r.Keys == w.Keys
    ensures forall id :: id in w ==> r[id].health == w[id].health
    ensures forall id :: id in w && c.actor == Some(id) ==> r[id].effects == RoundCountdown(w[id].effects)
    ensures forall id :: id in w && c.actor != Some(id) ==> r[id] == w[id]
  {
    match ActorIdOf(w, Some(c))
    case None => w
    case Some(id) => w[id := w[id].(effects := RoundCountdown(w[id].effects))]
  }

  /** Over a whole round, each actor's effects go through the round branch once per
      combatant it backs. */
  lemma {:induction false} RoundAllRepeats(w: World, cs: seq<Combatant>, id: string)
    requires id in w
    ensures RoundAll(w, cs)[id].effects == RepeatRound(w[id].effects, Occurrences(cs, id))
  {
    if cs != [] {
      var w1 := RoundOne(w, cs[0]);
      var k := Occurrences(cs[1..], id);
      assert RoundAll(w, cs) == RoundAll(w1, cs[1..]);
      RoundAllRepeats(w1, cs[1..], id);
      if cs[0].actor == Some(id) {
        assert w1[id].effects == RoundCountdown(w[id].effects);
        assert Occurrences(cs, id) == k + 1;
        assert RepeatRound(w[id].effects, k + 1) == RepeatRound(RoundCountdown(w[id].effects), k);
      } else {
        assert w1[id] == w[id];
        assert Occurrences(cs, id) == k;
      }
    }
  }

  /** The second hook: turns on the previous combatant's actor, then rounds on everybody. */
  function CountdownHook(w: World, combat: Combat, update: CombatUpdate): (r: World)
    ensures r.Keys == w.Keys
    ensures forall id :: id in w ==> r[id].health == w[id].health
    ensures !update.hasTurn && !update.hasRound ==> r == w
    ensures var p := ActorIdOf(w, FindCombatant(combat.combatants, combat.previous));
            update.hasTurn && !update.hasRound ==>
              && (forall id :: id in w && Some(id) != p ==> r[id] == w[id])
              && (p.Some? ==> r[p.value].effects == TurnCountdown(w[p.value].effects, false))
  {
    var w1 :=
      if update.hasTurn then
        match ActorIdOf(w, FindCombatant(combat.combatants, combat.previous))
        case None => w
        case Some(id) => w[id := w[id].(effects := TurnCountdown(w[id].effects, update.hasRound))]
      else w;
    if update.hasRound then RoundAll(w1, combat.combatants) else w1
  }

  /** Both hooks on one update. The damage hook reads the effects before its first await,
      so it sees them before the countdown; the countdown does not read health. */
  function OnUpdateCombat(w: World, combat: Combat, update: CombatUpdate, isGM: bool,
                          roll: DamageTag -> int): (r: World)
    ensures r.Keys == w.Keys
    ensures forall id :: id in w ==> r[id].health == DamageHook(w, combat, update, isGM, roll)[id].health
    ensures forall id :: id in w ==> r[id].effects == CountdownHook(w, combat, update)[id].effects
  {
    var w1 := DamageHook(w, combat, update, isGM, roll);
    CountdownLeavesHealthAndReadsEffects(w, w1, combat, update);
    CountdownHook(w1, combat, update)
  }

  /** The countdown depends only on the effects and keys of a world. */
  lemma CountdownLeavesHealthAndReadsEffects(w: World, w': World, combat: Combat, update: CombatUpdate)
    requires w'.Keys == w.Keys
    requires forall id :: id in w ==> w'[id].effects == w[id].effects
    ensures forall id :: id in w ==> CountdownHook(w', combat, update)[id].effects
                                     == CountdownHook(w, combat, update)[id].effects
  {
    var p := ActorIdOf(w, FindCombatant(combat.combatants, combat.previous));
    assert p == ActorIdOf(w', FindCombatant(combat.combatants, combat.previous));
    var w1 :=
      if update.hasTurn then
        match p
        case None => w
        case Some(id) => w[id := w[id].(effects := TurnCountdown(w[id].effects, update.hasRound))]
      else w;
    var w1' :=
      if update.hasTurn then
        match p
        case None => w'
        case Some(id) => w'[id := w'[id].(effects := TurnCountdown(w'[id].effects, update.hasRound))]
      else w';
    assert w1.Keys == w1'.Keys;
    assert forall id :: id in w1 ==> w1[id].effects == w1'[id].effects;
    if update.hasRound {
      forall id | id in w
        ensures RoundAll(w1', combat.combatants)[id].effects == RoundAll(w1, combat.combatants)[id].effects
      {
        RoundAllRepeats(w1, combat.combatants, id);
        RoundAllRepeats(w1', combat.combatants, id);
      }
    }
  }

  /** On a new round, each actor's effects go through the turn branch (if its combatant's
      turn just ended) and then through the round branch once per combatant it backs. */
  lemma NewRoundCountdown(w: World, combat: Combat, update: CombatUpdate, id: string)
    requires update.hasRound && id in w
    ensures var p := ActorIdOf(w, FindCombatant(combat.combatants, combat.previous));
            var turned := if update.hasTurn && p == Some(id) then TurnCountdown(w[id].effects, true)
                          else w[id].effects;
            CountdownHook(w, combat, update)[id].effects
              == RepeatRound(turned, Occurrences(combat.combatants, id))
  {
    var p := ActorIdOf(w, FindCombatant(combat.combatants, combat.previous));
    var w1 :=
      if update.hasTurn then
        match p
        case None => w
        case Some(a) => w[a := w[a].(effects := TurnCountdown(w[a].effects, update.hasRound))]
      else w;
    RoundAllRepeats(w1, combat.combatants, id);
  }

  // ---------------------------------------------------------------------------
  // Durations over time

  /** A one-turn effect is deleted when its combatant's turn ends. */
  lemma OneTurnExpires(e: Effect, hasRound: bool)
    requires e.turns == Some(1)
    ensures TurnTick(e, hasRound).None?
  {
  }

  /** A two-round effect whose turns are spent survives the first new round and is
      deleted at the second. */
  lemma TwoRoundsExpire(e: Effect)
    requires e.turns == Some(0) && e.rounds == Some(2)
    ensures RoundCountdown([e]) == [e.(rounds := Some(1))]
    ensures RoundCountdown(RoundCountdown([e])) == []
  {
    assert [e][1..] == [];
    var e1 := e.(rounds := Some(1));
    assert RoundCountdown([e]) == [e1];
    assert [e1][1..] == [];
  }

  /** The turn counter alone decides deletion on the turn branch: rounds left do not
      keep an effect whose last turn has passed. */
  lemma LastTurnDeletesWhateverRoundsRemain(e: Effect, m: nat)
    requires e.turns == Some(1) && e.rounds == Some(m) && m > 1
    ensures TurnTick(e, true).None? && TurnTick(e, false).None?
  {
  }

  /** An effect from the `temporary` row (one round, turns unset) is never deleted: the
      first new round takes its rounds to 0, and `turns === 0` never holds. */
  lemma CreatedTemporaryNeverExpires(ownerUuid: string, name: string, id: string)
    ensures var e := CreatedEffect(CreateEffectData(Some("temporary"), ownerUuid, name), id);
            RoundTick(e) == Some(e.(rounds := Some(0)))
  {
  }

  /** Once there, it stays: neither branch changes or removes it, for any number of rounds. */
  lemma {:induction false} SpentTemporaryIsStranded(e: Effect, k: nat)
    requires e.turns.None? && e.rounds == Some(0)
    ensures RepeatRound([e], k) == [e]
    ensures TurnCountdown([e], true) == [e] && TurnCountdown([e], false) == [e]
    decreases k
  {
    SpentTemporaryStep(e);
    if k > 0 {
      SpentTemporaryIsStranded(e, k - 1);
    }
  }

  lemma SpentTemporaryStep(e: Effect)
    requires e.turns.None? && e.rounds == Some(0)
    ensures RoundCountdown([e]) == [e]
    ensures TurnCountdown([e], true) == [e] && TurnCountdown([e], false) == [e]
  {
    assert [e][1..] == [];
    assert RoundTick(e) == Some(e);
    assert TurnTick(e, true) == Some(e) && TurnTick(e, false) == Some(e);
  }

  /** On an update that changes both turn and round, an effect on the combatant whose turn
      ended loses two rounds: one in the turn branch and one in the round branch. */
  lemma PreviousCombatantLosesTwoRounds(a: string, health: int, e: Effect, combatantId: string)
    requires e.turns.None? && e.rounds == Some(3)
    ensures var w := map[a := ActorState(health, [e])];
            var combat := Combat([Combatant(combatantId, Some(a))], Some(combatantId), None);
            CountdownHook(w, combat, CombatUpdate(true, true))[a].effects == [e.(rounds := Some(1))]
  {
    var w := map[a := ActorState(health, [e])];
    var cs := [Combatant(combatantId, Some(a))];
    var combat := Combat(cs, Some(combatantId), None);
    assert FindCombatant(cs, Some(combatantId)) == Some(cs[0]);
    NewRoundCountdown(w, combat, CombatUpdate(true, true), a);
    var e2 := e.(rounds := Some(2));
    assert [e][1..] == [];
    assert TurnCountdown([e], true) == [e2];
    assert cs[1..] == [];
    assert Occurrences(cs, a) == 1;
    assert [e2][1..] == [];
    assert RoundCountdown([e2]) == [e.(rounds := Some(1))];
  }
}
