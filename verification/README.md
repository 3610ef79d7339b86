# Shinzo system core, modelled in Dafny

Shinzo is a tabletop role-playing system for Foundry VTT. This project models its rule
core as pure functions over immutable data and proves properties of them:

- **Derived statistics** (`ActorData`, `ActorDataProofs`). A character has six primary
  attributes (`con agi cha sav mag men`). Each one is stored as `value`, `b_m` and `brut`.
  From them the engine derives:
  - three masteries (`cor esp soc`);
  - twenty sub-skills, in two tiers;
  - physical and magical resistance flags (`rdp`, `rdm`);
  - the `valuation` and `totalmod` aggregates.

  An NPC's experience is derived from its challenge rating.
  The proofs use a weight table as an independent reference for every formula.
- **Active effects** (`ActiveEffects`). The sheets sort effects into temporary, passive and
  inactive lists. The effect controls create, toggle and delete effects.
- **Combat hooks** (`CombatHooks`). The two `updateCombat` handlers:
  - periodic damage on the actor whose turn starts;
  - the countdown of effect durations, by turns on the combatant whose turn ended and by
    rounds on every combatant when a new round begins.
- **Character-sheet rolls** (`ActorSheet`, `Numerals`). The modifier dialog and its clamp to
  [15, 85], the d100 outcome rules with their critical ranges, the specialty and weapon
  rolls, and the sorting of owned items into the sheet's six lists.
- **Bag contents** (`BagContents`). A bag item stores copies of items as plain data. The
  item sheet can drop, remove, edit and add them, and start dragging them.

Modelling choices:

- Numbers are mathematical integers. Dafny's `/` by a positive divisor is the source's
  `Math.floor(a / b)`.
- Dice results, the host's `isTemporary` flag, uuid lookup, fresh ids and the default item
  icon are parameters.
- An effect's duration counters are `Option<nat>`, with `None` for an unset counter.
  In the source, `null > 0` and `null === 0` are both false, so an unset counter is never
  decremented and never counts as spent.
- Every awaited update is one sequential step of a pure transition.

Where the code and the system's written description disagree, the model follows the code:

- A `con` or `mag` of exactly 30 gives the flag -1, not 0. The test is `<= 30`
  (`module/documents/actor.mjs:92`).
- An effect with one turn and several rounds left is deleted when its combatant's turn
  ends. The turn branch deletes once `turns` reaches 0, whatever `rounds` holds
  (`module/shinzo.mjs:290-296`). `CombatHooks.LastTurnDeletesWhateverRoundsRemain` states
  this.

## Model

| member | source | states |
|---|---|---|
| ActorData.PrepareBrut | module/documents/actor.mjs:57-62 | each primary's `brut` is its `value` plus `b_m`; `value` and `b_m` are kept |
| ActorData.PrepareMaitrises | module/documents/actor.mjs:64-66 | the mastery stage writes only the masteries' `value`s; their `b_m` inputs are untouched |
| ActorData.PrepareSsStats1 | module/documents/actor.mjs:68-77 | the first sub-skill stage writes only `value`; `mod` and `b_m` are kept |
| ActorData.PrepareSsStats2 | module/documents/actor.mjs:78-87 | the second sub-skill stage writes only `value`; `mod` and `b_m` are kept |
| ActorData.ResistanceLevel | module/documents/actor.mjs:89-98 | the flag is 1 exactly from 70 up, -1 exactly up to 30 (30 included), 0 strictly between |
| ActorData.PrepareResistances | module/documents/actor.mjs:100-109 | the damage and resistance flags of a pair are equal and follow the attribute's level |
| ActorData.PrepareCharacterData | module/documents/actor.mjs:44-121 | no input field changes; every `brut` is `value + b_m`; `rdp` and `rdm` are 1 or -1 exactly at the thresholds of `con` and `mag` |
| ActorData.PrepareNpcData | module/documents/actor.mjs:126-132 | experience is a non-negative multiple of 100, zero exactly when the challenge rating is zero |
| ActorDataProofs.NpcXpSteps | module/documents/actor.mjs:126-132 | experience depends only on the rating's size, and one more step of rating adds `100 * (2 * cr + 1)` |
| ActorDataProofs.NpcXpMatchesSteps | module/documents/actor.mjs:126-132 | experience equals the reference sum of the first `abs(cr)` odd multiples of 100 |
| ActorData.PrepareDerivedData | module/documents/actor.mjs:30-39 | characters and NPCs keep their kind and get their own preparation; other actor types are unchanged |
| ActorDataProofs.WeightsSumToDivisor | module/documents/actor.mjs:64-87 | in every mastery and sub-skill formula the weights add up to the divisor: each is a weighted average |
| ActorDataProofs.MasteriesMatchTable | module/documents/actor.mjs:64-66 | each mastery is the floor of its weighted primary average (reference weight table) plus its `b_m` |
| ActorDataProofs.SkillsMatchTable | module/documents/actor.mjs:68-87 | each sub-skill is the floor of its weighted average of primaries and masteries (reference table) plus `mod` and `b_m` |
| ActorDataProofs.ParAndComCopyTheirMastery | module/documents/actor.mjs:72-78 | `par` is `cor` plus its modifiers and `com` is `soc` plus its modifiers, with no rounding |
| ActorDataProofs.CorExample | module/documents/actor.mjs:57-90 | con 70, agi 50, sav 40 with no modifier give `cor` 56, `brut` 70 and a physical flag of 1 |
| ActorDataProofs.ResistanceBoundaries | module/documents/actor.mjs:89-98 | the flag at 29, 30, 31, 69 and 70 |
| ActorDataProofs.UniformInputs | module/documents/actor.mjs:64-87 | with every primary equal to `x` and no mastery modifier, each mastery is `x` and each sub-skill is `x` plus its own modifiers |
| ActorDataProofs.TiersReadPrimaryValuesOnly | module/documents/actor.mjs:64-87 | masteries and sub-skills read only the primaries' `value`, never `b_m` or `brut` |
| ActorDataProofs.PrimaryModifierOnlyMovesBrut | module/documents/actor.mjs:57-87 | changing one primary's `b_m` changes that primary's `brut` and nothing else of the result |
| ActorDataProofs.Deterministic | module/documents/actor.mjs:44-121 | two trees with the same input fields get the same derived tree: stale derived values are never read |
| ActorDataProofs.Idempotent | module/documents/actor.mjs:44-121 | preparing an already prepared tree changes nothing |
| ActorDataProofs.FloorMonotone | module/documents/actor.mjs:64-87 | the floor of a quotient is monotone in its numerator |
| ActorDataProofs.MonotoneInPrimaryValues | module/documents/actor.mjs:64-87 | raising primary values, with everything else equal, never lowers a mastery or a sub-skill |
| ActorDataProofs.SumsSplit | module/documents/actor.mjs:111-112 | the reference sums over a list of sub-skills split over concatenation |
| ActorDataProofs.WrittenOutSumsByBlocks | module/documents/actor.mjs:111-112 | the twenty-term written-out sums equal the reference sums, five terms at a time |
| ActorDataProofs.AggregatesAreSums | module/documents/actor.mjs:111-112 | `valuation` is the sum of all twenty sub-skill values minus 900; `totalmod` is the sum of their `mod`s |
| ActiveEffects.CategoryOf | module/helpers/effects.mjs:88-92 | an effect is inactive exactly when disabled, temporary exactly when enabled and temporary, passive otherwise |
| ActiveEffects.Select | module/helpers/effects.mjs:88-92 | a category's list holds exactly the effects of that category, in their original order |
| ActiveEffects.SelectPartitions | module/helpers/effects.mjs:88-92 | the three lists together are as long as the input: each effect is listed exactly once |
| ActiveEffects.PrepareActiveEffectCategories | module/helpers/effects.mjs:67-94 | the one-pass loop yields the reference selection for each category and loses no effect |
| ActiveEffects.CreateEffectData | module/helpers/effects.mjs:15-27 | a new effect lasts one round exactly when made from the temporary row, is disabled exactly when made from the inactive row, and records its owner as origin |
| ActiveEffects.CreatedInactiveIsInactive | module/helpers/effects.mjs:15-27 | an effect created from the inactive row is listed as inactive |
| ActiveEffects.Toggle | module/helpers/effects.mjs:57-58 | toggling flips `disabled` and changes nothing else |
| ActiveEffects.ToggleTwice | module/helpers/effects.mjs:57-58 | toggling twice restores the effect |
| ActiveEffects.ToggleSwitchesInactive | module/helpers/effects.mjs:57-58 | toggling moves an effect into or out of the inactive list and back to its previous category |
| ActiveEffects.ToggleById | module/helpers/effects.mjs:7-58 | the first effect with the given id is toggled and every other effect kept; ids never change; an unknown id changes nothing |
| ActiveEffects.ToggleByIdTwice | module/helpers/effects.mjs:7-58 | pressing the toggle control twice on the same row restores the owner's effects |
| ActiveEffects.CreateEffect | module/helpers/effects.mjs:15-27 | creating appends one effect with unset turns and keeps all others |
| ActiveEffects.DeleteById | module/helpers/effects.mjs:33-56 | exactly the effects without the given id are kept |
| ActiveEffects.DeleteUndoesCreate | module/helpers/effects.mjs:15-56 | deleting a freshly created effect by its id restores the owner's effects |
| CombatHooks.FindCombatant | module/shinzo.mjs:182 | the combatant found carries the requested id; none is found when no combatant does |
| CombatHooks.FindByName | module/shinzo.mjs:185-190 | an effect is found exactly when one has the name, whether or not it is disabled |
| CombatHooks.ApplyDamage | module/shinzo.mjs:192-274 | the sequence of health updates subtracts the reference loss: the sum of the rolls of the tags present |
| CombatHooks.LossBounds | module/shinzo.mjs:192-274 | with each roll within its die, the loss is at least the number of tags present and at most the sum of their dice |
| CombatHooks.NoTagNoLoss | module/shinzo.mjs:185-274 | an actor with none of the six effects takes no damage |
| CombatHooks.DamageHook | module/shinzo.mjs:180-279 | only a GM client on a turn change acts; only the current combatant's actor loses health, by the reference loss; no effect changes |
| CombatHooks.TurnTick | module/shinzo.mjs:287-305 | an effect is deleted on the turn branch exactly when its last turn passes, or when its last round passes with turns spent; otherwise its counters are decremented |
| CombatHooks.RoundTick | module/shinzo.mjs:314-327 | an effect is deleted at a new round exactly when its last round passes with turns spent; otherwise its rounds are decremented |
| CombatHooks.TurnCountdownSurvivors | module/shinzo.mjs:286-306 | the survivors are exactly the ticked versions of the effects that are not deleted, and none is added |
| CombatHooks.RoundCountdownSurvivors | module/shinzo.mjs:313-328 | the survivors are exactly the ticked versions of the effects that are not deleted, and none is added |
| CombatHooks.RoundOne | module/shinzo.mjs:309-328 | one combatant's actor has its effects counted down by a round; no other actor and no health changes |
| CombatHooks.RoundAllRepeats | module/shinzo.mjs:308-330 | over a new round, an actor's effects are counted down once per combatant it backs |
| CombatHooks.CountdownHook | module/shinzo.mjs:281-331 | no health changes; without turn or round nothing changes; on a turn alone only the previous combatant's actor changes, by the turn countdown |
| CombatHooks.NewRoundCountdown | module/shinzo.mjs:281-331 | on a new round an actor's effects go through the turn branch if its turn just ended, then through the round branch once per combatant it backs |
| CombatHooks.OnUpdateCombat | module/shinzo.mjs:180-331 | with both hooks on one update, health is what the damage hook gives and effects are what the countdown gives: the damage hook reads the effects before the countdown |
| CombatHooks.OneTurnExpires | module/shinzo.mjs:290-296 | an effect with one turn left is deleted when its combatant's turn ends |
| CombatHooks.TwoRoundsExpire | module/shinzo.mjs:318-325 | an effect with turns spent and two rounds survives one new round and is deleted at the next |
| CombatHooks.LastTurnDeletesWhateverRoundsRemain | module/shinzo.mjs:290-296 | an effect with one turn and several rounds left is deleted on its turn |
| CombatHooks.CreatedTemporaryNeverExpires | module/shinzo.mjs:318-325 | an effect from the temporary row reaches zero rounds at the first new round and is not deleted |
| CombatHooks.SpentTemporaryIsStranded | module/shinzo.mjs:287-327 | an effect with unset turns and zero rounds survives every later turn and round unchanged |
| CombatHooks.PreviousCombatantLosesTwoRounds | module/shinzo.mjs:298-325 | on an update changing both turn and round, an effect on the previous combatant loses two rounds |
| Numerals.NatToString | module/sheets/actor-sheet.mjs:485-486 | the decimal text of a natural is a non-empty run of digits without a leading zero |
| Numerals.IntToString | module/sheets/actor-sheet.mjs:485-486 | the text starts with a minus sign exactly for negative numbers |
| Numerals.NatRoundTrip | module/sheets/actor-sheet.mjs:485-486 | reading back the digits of a natural gives the natural |
| Numerals.IntRoundTrip | module/sheets/actor-sheet.mjs:485-486 | reading back the text of an integer gives the integer |
| Numerals.IntToStringInjective | module/sheets/actor-sheet.mjs:485-486 | different integers have different texts |
| ActorSheet.ModeStatName | module/sheets/actor-sheet.mjs:561-594 | the neutral button keeps the stat's label; the others extend it |
| ActorSheet.Clamp | module/sheets/actor-sheet.mjs:562-603 | the stat rolled against lies in [15, 85]; below 15 the excess becomes a negative critical modifier; above 85 half the excess, rounded down, becomes a positive one; otherwise the sheet's own modifier is used |
| ActorSheet.ButtonsDifferOnlyInDice | module/sheets/actor-sheet.mjs:556-605 | the three buttons roll against the same clamped stat and critical modifier; their formulas are pairwise distinct; only the neutral button keeps the stat's own label |
| ActorSheet.HalveMalus | module/sheets/actor-sheet.mjs:608-612 | the `/2` button's malus is half the base value, negated and rounded toward minus infinity |
| ActorSheet.HalvedStatIsHalf | module/sheets/actor-sheet.mjs:608-612 | with that malus the roll is made against half the base, rounded down |
| ActorSheet.SplitCrit | module/sheets/actor-sheet.mjs:388-395 | the critical modifier splits into a success bonus and a failure bonus, at most one non-zero, whose difference is the modifier |
| ActorSheet.Classify | module/sheets/actor-sheet.mjs:400-475 | critical success up to 5 plus the bonus; then critical failure from 96 less the bonus; then success under the stat (the margin reported for con, mag, pug, cac, pre and esq only), failure over it, and no message on an exact hit |
| ActorSheet.FixedCriticalBands | module/sheets/actor-sheet.mjs:400-427 | with no critical modifier, results up to 5 always succeed critically and from 96 always fail critically |
| ActorSheet.SuccessCountThreshold | module/sheets/actor-sheet.mjs:400-475 | when the successes among the results are exactly those below a threshold, they number one less than it |
| ActorSheet.SuccessChance | module/sheets/actor-sheet.mjs:400-475 | against a stat in [15, 85] with critical ranges clear of it, exactly `stat - 1` of the 100 faces succeed |
| ActorSheet.HopelessBelowFloor | module/sheets/actor-sheet.mjs:562-566 | clamped up from below 15, any result above 5 and at least 81 over the adjusted value is a critical failure |
| ActorSheet.WidenedCriticalAboveCeiling | module/sheets/actor-sheet.mjs:567-570 | clamped down from above 85, results up to 5 plus half the excess are critical successes |
| ActorSheet.SpecialtyCountUpTo | module/sheets/actor-sheet.mjs:498-518 | of the results 1..n, the specialty roll succeeds on all when n is at most 100 and on exactly 100 otherwise |
| ActorSheet.SpecialtyChance | module/sheets/actor-sheet.mjs:498-518 | the formula's die has 150 faces, exactly 100 of which succeed (two in three), and every face above 100 fails |
| ActorSheet.WeaponFormula | module/sheets/actor-sheet.mjs:478-490 | the weapon's formula is kept as is when the damage resistance flag is 0; otherwise `+` and the flag are appended |
| ActorSheet.WeaponBonusReadable | module/sheets/actor-sheet.mjs:484-490 | the appended flag can be read back from the formula's tail |
| ActorSheet.OfKind | module/sheets/actor-sheet.mjs:139-162 | a list holds exactly the items of its kind, icon defaulted, in order |
| ActorSheet.PrepareItems | module/sheets/actor-sheet.mjs:129-171 | the one-pass loop yields the reference list for each of the six kinds |
| ActorSheet.ListsCoverListedKinds | module/sheets/actor-sheet.mjs:139-170 | the six lists hold one entry per item of a listed kind; items of any other kind appear nowhere |
| BagContents.FindIndex | module/sheets/item-sheet.mjs:243 | the index found is the first entry with the id; none is found exactly when no entry has it |
| BagContents.Find | module/sheets/item-sheet.mjs:338 | an entry is found exactly when one carries the id, and it carries it |
| BagContents.Drop | module/sheets/item-sheet.mjs:142-188 | only a parsed `Item` payload whose uuid resolves changes the bag: it appends a copy under the fresh id, and a missing list counts as empty |
| BagContents.Remove | module/sheets/item-sheet.mjs:195-217 | exactly the entries whose id differs are kept |
| BagContents.RemoveIdempotent | module/sheets/item-sheet.mjs:205 | removing twice is removing once |
| BagContents.RemoveAbsent | module/sheets/item-sheet.mjs:205 | removing an id no entry carries changes nothing |
| BagContents.RemoveUndoesDrop | module/sheets/item-sheet.mjs:175-205 | removing what was just dropped, by its fresh id, restores the bag |
| BagContents.Edit | module/sheets/item-sheet.mjs:236-266 | the submitted fields overwrite the first entry with the id; its other fields and all other entries are kept; nothing is updated when no entry has the id |
| BagContents.EditIdempotent | module/sheets/item-sheet.mjs:243-256 | submitting the same form twice is submitting it once |
| BagContents.Add | module/sheets/item-sheet.mjs:294-308 | the submitted form is appended and the rest kept |
| BagContents.RemoveAfterAdd | module/sheets/item-sheet.mjs:205-307 | removing by an added entry's id takes it out along with every other entry with that id |
| BagContents.AddedWithoutIdIsNeverDragged | module/sheets/item-sheet.mjs:307-343 | an added form without `_id` is never the entry a drag picks up |
| BagContents.DragStart | module/sheets/item-sheet.mjs:318-353 | a payload is made exactly when there is a transfer, a non-empty id and an entry with that id; it is typed `Item` and carries that entry |
| BagContents.DragToBagResolvesNoUuid | module/sheets/item-sheet.mjs:147-172 | a bag entry's drag payload carries no uuid, so dropping it on a bag changes nothing when the host resolves nothing for an undefined uuid |

## Left out

- module/documents/item.mjs, the templates, the language files, module/helpers/config.mjs and the
  remaining sheet handlers are not part of this model. They hold presentation, item roll
  data and configuration.
- Chat messages, dialogs, notifications and rendering are left out. Only the state they
  decide is modelled: the roll outcome, the formula and the label.
- Dice are not modelled. Each roll total is a parameter. Dice notation such as `2d100k`
  appears only as text.
- Persistence and concurrency are left out. Each awaited document update is one step of a
  pure transition. The countdown hook has no GM guard, so every connected client runs it;
  the model describes one client's run.
- CombatHooks.TurnTick: an effect deleted on the turn branch takes no further part in the
  round check of the same effect. When its rounds are positive on a new round, the source
  goes on to await an update of the deleted document (module/shinzo.mjs:298-299). The model
  assumes that stale update is harmless. If the host rejects it, the rejection ends the
  hook: the remaining effects and the whole round branch (module/shinzo.mjs:308-330) do not
  run, which the model does not describe.
- CombatHooks.DamageHook: a missing current combatant or actor leaves the world unchanged.
  The source throws on the dereference.
- ActiveEffects.ToggleById: an unknown id leaves the effects unchanged. The source throws
  instead: `owner.effects.get` returns `undefined` for an unknown id, and the lookup gives
  `null` when the row has no id, so `effect.update` fails on either.
- ActiveEffects.DeleteById: ids are assumed unique within an owner, as the host's
  collection keys them, so every effect with the id is removed.
- The `edit` effect control only opens a configuration sheet. It is not modelled.
- `isTemporary` is decided by the host from an effect's duration. It is a parameter.
- ActorData.PrepareNpcData: the challenge rating is an integer. Fractional ratings are not
  modelled.
- All numeric fields are integers. Fractional or non-numeric values (`NaN` from an empty or
  non-numeric dialog input) are not modelled. An empty modifier field reads as 0 and is
  passed as such.
- BagContents.Edit: the JSON clone drops fields that JSON cannot carry. Entries here hold
  only text, so the clone is the identity.
- BagContents: entries are maps from field names to text. Nested item data is flattened
  into that one map.
- `_onAddItem`'s default name, with its capitalised type, only seeds the form. The model
  takes the submitted form as given.
