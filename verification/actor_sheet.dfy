/**
 * The roll rules of the character sheet (sheets/actor-sheet.mjs): the
 * modifier dialog and its clamp to [15, 85], the d100 outcome rules with
 * critical ranges, the specialty and weapon rolls, and the sorting of owned
 * items into the sheet's six lists. The die result is a parameter.
 */
module ActorSheet {
  import opened Wrappers
  import opened Numerals

  // ---------------------------------------------------------------------------
  // The modifier dialog

  const StatFloor: int := 15
  const StatCeiling: int := 85

  /** The three buttons of the dialog. */
  datatype RollMode = Desavantage | Neutre | Avantage

  /** Dice formula per button: the d100 is roll-under, so keeping the highest of two
      dice is the disadvantage. */
  function ModeFormula(m: RollMode): string {
    match m
    case Desavantage => "2d100k"
    case Neutre => "1d100"
    case Avantage => "2d100kl"
  }

  /** The stat label shown in chat for each button. */
  function ModeStatName(m: RollMode, statName: string): (r: string)
    ensures m.Neutre? ==> r == statName
    ensures !m.Neutre? ==> |r| > |statName| && r[..|statName|] == statName
  {
    match m
    case Desavantage => statName + " : Désavantage"
    case Neutre => statName
    case Avantage => statName + " : Avantage"
  }

  /** The stat and critical modifier a roll is made with. */
  datatype Adjusted = Adjusted(stat: int, crit: int)

  /** Base value plus the typed modifier, clamped into [15, 85]. Going under the floor turns
      the excess into a negative critical modifier; going over the ceiling turns half the
      excess (rounded down) into a positive one; otherwise the sheet's own `crit` stays. */
  function Clamp(base: int, modifier: int, crit: int): (r: Adjusted)
    ensures StatFloor <= r.stat <= StatCeiling
    ensures base + modifier < StatFloor ==> r.crit < 0 && r.stat + r.crit == base + modifier
    ensures base + modifier > StatCeiling ==>
              r.crit >= 0 && 2 * r.crit <= base + modifier - StatCeiling < 2 * r.crit + 2
    ensures StatFloor <= base + modifier <= StatCeiling ==> r == Adjusted(base + modifier, crit)
  {
    var v := base + modifier;
    if v < StatFloor then Adjusted(StatFloor, -(StatFloor - v))
    else if v > StatCeiling then Adjusted(StatCeiling, (v - StatCeiling) / 2)
    else Adjusted(v, crit)
  }

  /** What a dialog button hands to the roll: formula, label and adjusted stat. */
  datatype RollRequest = RollRequest(formula: string, statName: string, adjusted: Adjusted)

  function DialogRoll(m: RollMode, base: int, modifier: int, crit: int, statName: string): (r: RollRequest)
    ensures r.formula == ModeFormula(m) && r.statName == ModeStatName(m, statName)
    ensures r.adjusted == Clamp(base, modifier, crit)
  {
    RollRequest(ModeFormula(m), ModeStatName(m, statName), Clamp(base, modifier, crit))
  }

  /** The button only picks the dice and the label: the stat and critical modifier rolled
      against are the same for all three, the three formulas differ, and only the neutral
      button keeps the stat's own name. */
  lemma ButtonsDifferOnlyInDice(m1: RollMode, m2: RollMode, base: int, modifier: int, crit: int,
                                statName: string)
    ensures DialogRoll(m1, base, modifier, crit, statName).adjusted
            == DialogRoll(m2, base, modifier, crit, statName).adjusted
    ensures (DialogRoll(m1, base, modifier, crit, statName).formula
             == DialogRoll(m2, base, modifier, crit, statName).formula) <==> m1 == m2
    ensures DialogRoll(m1, base, modifier, crit, statName).statName == statName <==> m1.Neutre?
  {
  }

  /** The `/2` button: a malus of half the base value, rounded toward minus infinity. */
  function HalveMalus(base: int): (m: int)
    ensures 2 * m <= -base < 2 * m + 2
  {
    (-base) / 2
  }

  /** With the halving malus typed in, the roll is made against half the base, rounded down. */
  lemma HalvedStatIsHalf(base: int)
    ensures var v := base + HalveMalus(base); 2 * v == base || 2 * v == base - 1
  {
  }

  // ---------------------------------------------------------------------------
  // Outcomes

  /** The sheet's critical modifier split into a success bonus and a failure bonus. */
  datatype CritSplit = CritSplit(success: nat, failure: nat)

  function SplitCrit(crit: int): (r: CritSplit)
    ensures r.success == 0 || r.failure == 0
    ensures r.success - r.failure == crit
  {
    if crit > 0 then CritSplit(crit, 0)
    else if crit < 0 then CritSplit(0, -crit)
    else CritSplit(0, 0)
  }

  /** The stats whose successes report the margin. */
  const MarginStats: set<string> := {"con", "mag", "pug", "cac", "pre", "esq"}

  /** The chat message a d100 result produces; an exact hit on the stat produces none. */
  datatype Outcome = CritSuccess | CritFailure | Success(margin: Option<nat>) | Failure | NoMessage

  predicate IsSuccess(o: Outcome) {
    o.CritSuccess? || o.Success?
  }

  /** `rollStats`: critical success first, then critical failure, then under or over. */
  function Classify(total: int, stat: int, crit: int, abridged: string): (o: Outcome)
    ensures o.CritSuccess? <==> total <= 5 + SplitCrit(crit).success
    ensures o.CritFailure? <==> total > 5 + SplitCrit(crit).success && total >= 96 - SplitCrit(crit).failure
    ensures o.Success? ==> total < stat && (o.margin.Some? <==> abridged in MarginStats)
    ensures o.Success? && o.margin.Some? ==> o.margin.value + total == stat
    ensures o.Failure? ==> total > stat
    ensures o.NoMessage? ==> total == stat
  {
    var split := SplitCrit(crit);
    if total <= 5 + split.success then CritSuccess
    else if total >= 96 - split.failure then CritFailure
    else if total < stat then Success(if abridged in MarginStats then Some(stat - total) else None)
    else if total > stat then Failure
    else NoMessage
  }

  /** Without critical modifier, the five lowest results always succeed and the five
      highest always fail, whatever the stat. */
  lemma FixedCriticalBands(total: int, stat: int, abridged: string)
    ensures total <= 5 ==> Classify(total, stat, 0, abridged) == CritSuccess
    ensures total >= 96 ==> Classify(total, stat, 0, abridged) == CritFailure
  {
  }

  /** How many of the results 1..n succeed. */
  function SuccessCount(n: nat, stat: int, crit: int): nat {
    if n == 0 then 0
    else SuccessCount(n - 1, stat, crit) + (if IsSuccess(Classify(n, stat, crit, "")) then 1 else 0)
  }

  /** Results below `k` succeed and results from `k` up to `n` do not: the count is `k - 1`. */
  lemma {:induction false} SuccessCountThreshold(n: nat, k: nat, stat: int, crit: int)
    requires 1 <= k <= n + 1
    requires forall t :: 1 <= t < k ==> IsSuccess(Classify(t, stat, crit, ""))
    requires forall t :: k <= t <= n ==> !IsSuccess(Classify(t, stat, crit, ""))
    ensures SuccessCount(n, stat, crit) == k - 1
    decreases n
  {
    if n >= k {
      SuccessCountThreshold(n - 1, k, stat, crit);
    } else if n > 0 {
      SuccessCountBelow(n, stat, crit);
    }
  }

  /** All of 1..n succeed. */
  lemma {:induction false} SuccessCountBelow(n: nat, stat: int, crit: int)
    requires forall t :: 1 <= t <= n ==> IsSuccess(Classify(t, stat, crit, ""))
    ensures SuccessCount(n, stat, crit) == n
    decreases n
  {
    if n > 0 {
      SuccessCountBelow(n - 1, stat, crit);
    }
  }

  /** On a d100 against a stat in [15, 85] whose critical ranges stay clear of it, exactly
      `stat - 1` faces succeed: the stat is the success chance, less the tie. */
  lemma SuccessChance(stat: int, crit: int)
    requires StatFloor <= stat <= StatCeiling
    requires 5 + SplitCrit(crit).success < stat <= 96 - SplitCrit(crit).failure
    ensures SuccessCount(100, stat, crit) == stat - 1
  {
    SuccessCountThreshold(100, stat, stat, crit);
  }

  /** Once clamped down from far below the floor, every result above 5 is a critical failure. */
  lemma HopelessBelowFloor(base: int, modifier: int, crit: int, total: int, abridged: string)
    requires base + modifier < StatFloor && total > 5
    requires total >= base + modifier + 81
    ensures var a := Clamp(base, modifier, crit); Classify(total, a.stat, a.crit, abridged) == CritFailure
  {
  }

  /** Above the ceiling, results up to 5 plus half the excess are critical successes. */
  lemma WidenedCriticalAboveCeiling(base: int, modifier: int, crit: int, total: int, abridged: string)
    requires base + modifier > StatCeiling
    requires 2 * (total - 5) <= base + modifier - StatCeiling
    ensures var a := Clamp(base, modifier, crit); Classify(total, a.stat, a.crit, abridged) == CritSuccess
  {
  }

  // ---------------------------------------------------------------------------
  // Specialty and weapon rolls

  const SpecialtyFormula: string := "1d150"
  const SpecialtyFaces: nat := 150
  const SpecialtyThreshold: nat := 100

  /** `_onRollSpe`: a d150 succeeds on 100 or less. */
  function SpecialtySucceeds(total: int): (ok: bool)
    ensures ok <==> total <= SpecialtyThreshold
  {
    total <= 100
  }

  /** How many of the results 1..n succeed on a specialty roll. */
  function SpecialtyCount(n: nat): nat {
    if n == 0 then 0 else SpecialtyCount(n - 1) + (if SpecialtySucceeds(n) then 1 else 0)
  }

  lemma {:induction false} SpecialtyCountUpTo(n: nat)
    ensures SpecialtyCount(n) == if n <= SpecialtyThreshold then n else SpecialtyThreshold
  {
    if n > 0 {
      SpecialtyCountUpTo(n - 1);
    }
  }

  /** The formula's die has 150 faces, of which exactly 100 succeed, the lowest ones: the
      chance is two in three, and every face above 100 fails. */
  lemma SpecialtyChance()
    ensures SpecialtyFormula == "1d" + NatToString(SpecialtyFaces)
    ensures SpecialtyCount(SpecialtyFaces) == SpecialtyThreshold
    ensures 3 * SpecialtyCount(SpecialtyFaces) == 2 * SpecialtyFaces
    ensures forall t :: SpecialtyThreshold < t <= SpecialtyFaces ==> !SpecialtySucceeds(t)
  {
    SpecialtyCountUpTo(SpecialtyFaces);
    assert NatToString(150) == NatToString(15) + [DigitChar(0)];
    assert NatToString(15) == NatToString(1) + [DigitChar(5)];
  }

  /** `_onRollArmes`: the weapon's formula, with the physical damage resistance appended
      when it is not zero (a negative one reads `+-1`). */
  function WeaponFormula(formula: string, bonus: int): (r: string)
    ensures bonus == 0 ==> r == formula
    ensures bonus != 0 ==> |r| > |formula| + 1 && r[..|formula|] == formula && r[|formula|] == '+'
  {
    if bonus != 0 then formula + "+" + IntToString(bonus) else formula
  }

  /** The bonus can be read back from the formula's tail. */
  lemma WeaponBonusReadable(formula: string, bonus: int)
    requires bonus != 0
    ensures var r := WeaponFormula(formula, bonus);
            ParseInt(r[|formula| + 1..]) == Some(bonus)
  {
    var r := WeaponFormula(formula, bonus);
    assert r[|formula| + 1..] == IntToString(bonus);
    IntRoundTrip(bonus);
  }

  // ---------------------------------------------------------------------------
  // Owned items on the sheet

  /** An owned item as `_prepareItems` sees it; an empty `img` counts as unset. */
  datatype OwnedItem = OwnedItem(id: string, kind: string, img: string)

  /** The six lists the sheet shows. */
  datatype SheetItems = SheetItems(objet: seq<OwnedItem>, arme: seq<OwnedItem>, armure: seq<OwnedItem>,
                                   sac: seq<OwnedItem>, trait_: seq<OwnedItem>, competence: seq<OwnedItem>)

  const ListedKinds: seq<string> := ["objet", "arme", "armure", "sac", "trait", "competence"]

  /** `i.img || Item.DEFAULT_ICON`; the host's default icon is a parameter. */
  function WithIcon(i: OwnedItem, defaultIcon: string): (r: OwnedItem)
    ensures r.id == i.id && r.kind == i.kind
    ensures i.img != "" ==> r.img == i.img
    ensures i.img == "" ==> r.img == defaultIcon
  {
    if i.img == "" then i.(img := defaultIcon) else i
  }

  /** The items of one kind, in order, with their icon defaulted (reference definition;
      `OfKindAppend` gives the order and multiplicity). */
  function OfKind(items: seq<OwnedItem>, kind: string, defaultIcon: string): (r: seq<OwnedItem>)
    ensures |r| <= |items|
    ensures forall x :: x in r ==> x.kind == kind && exists i :: i in items && x == WithIcon(i, defaultIcon)
    ensures forall i :: i in items && i.kind == kind ==> WithIcon(i, defaultIcon) in r
  {
    if items == [] then []
    else if items[0].kind == kind then [WithIcon(items[0], defaultIcon)] + OfKind(items[1..], kind, defaultIcon)
    else OfKind(items[1..], kind, defaultIcon)
  }

  lemma {:induction false} OfKindAppend(items: seq<OwnedItem>, i: OwnedItem, k: string, defaultIcon: string)
    ensures OfKind(items + [i], k, defaultIcon)
            == OfKind(items, k, defaultIcon) + (if i.kind == k then [WithIcon(i, defaultIcon)] else [])
  {
    if items == [] {
      assert items + [i] == [i];
      assert [i][1..] == [];
    } else {
      assert (items + [i])[0] == items[0];
      assert (items + [i])[1..] == items[1..] + [i];
      OfKindAppend(items[1..], i, k, defaultIcon);
    }
  }

  /** The six lists as the reference definition gives them. */
  function Listed(items: seq<OwnedItem>, defaultIcon: string): SheetItems {
    SheetItems(OfKind(items, "objet", defaultIcon), OfKind(items, "arme", defaultIcon),
               OfKind(items, "armure", defaultIcon), OfKind(items, "sac", defaultIcon),
               OfKind(items, "trait", defaultIcon), OfKind(items, "competence", defaultIcon))
  }

  /** One step of the loop: the item, icon defaulted, pushed onto the list of its kind. */
  function Push(r: SheetItems, i: OwnedItem): SheetItems {
    if i.kind == "objet" then r.(objet := r.objet + [i])
    else if i.kind == "arme" then r.(arme := r.arme + [i])
    else if i.kind == "armure" then r.(armure := r.armure + [i])
    else if i.kind == "sac" then r.(sac := r.sac + [i])
    else if i.kind == "trait" then r.(trait_ := r.trait_ + [i])
    else if i.kind == "competence" then r.(competence := r.competence + [i])
    else r
  }

  lemma PushExtends(items: seq<OwnedItem>, i: OwnedItem, defaultIcon: string)
    ensures Push(Listed(items, defaultIcon), WithIcon(i, defaultIcon)) == Listed(items + [i], defaultIcon)
  {
    OfKindAppend(items, i, "objet", defaultIcon);
    OfKindAppend(items, i, "arme", defaultIcon);
    OfKindAppend(items, i, "armure", defaultIcon);
    OfKindAppend(items, i, "sac", defaultIcon);
    OfKindAppend(items, i, "trait", defaultIcon);
    OfKindAppend(items, i, "competence", defaultIcon);
  }

  /** `_prepareItems`: one pass that pushes each item onto the list of its kind; items of any
      other kind are shown nowhere. */
  method PrepareItems(items: seq<OwnedItem>, defaultIcon: string) returns (r: SheetItems)
    ensures r.objet == OfKind(items, "objet", defaultIcon)
    ensures r.arme == OfKind(items, "arme", defaultIcon)
    ensures r.armure == OfKind(items, "armure", defaultIcon)
    ensures r.sac == OfKind(items, "sac", defaultIcon)
    ensures r.trait_ == OfKind(items, "trait", defaultIcon)
    ensures r.competence == OfKind(items, "competence", defaultIcon)
  {
    r := SheetItems([], [], [], [], [], []);
    var n := 0;
    while n < |items|
      invariant 0 <= n <= |items|
      invariant r == Listed(items[..n], defaultIcon)
    {
      PushExtends(items[..n], items[n], defaultIcon);
      r := Push(r, WithIcon(items[n], defaultIcon));
      assert items[..n + 1] == items[..n] + [items[n]];
      n := n + 1;
    }
    assert items[..n] == items;
  }

  /** Number of items whose kind is one of `kinds`. */
  function CountListed(items: seq<OwnedItem>, kinds: seq<string>): nat {
    if items == [] then 0
    else (if items[0].kind in kinds then 1 else 0) + CountListed(items[1..], kinds)
  }

  /** Every item of a listed kind appears once across the six lists, and no other item does. */
  lemma {:induction false} ListsCoverListedKinds(items: seq<OwnedItem>, defaultIcon: string)
    ensures |OfKind(items, "objet", defaultIcon)| + |OfKind(items, "arme", defaultIcon)|
            + |OfKind(items, "armure", defaultIcon)| + |OfKind(items, "sac", defaultIcon)|
            + |OfKind(items, "trait", defaultIcon)| + |OfKind(items, "competence", defaultIcon)|
            == CountListed(items, ListedKinds)
  {
    if items != [] {
      ListsCoverListedKinds(items[1..], defaultIcon);
    }
  }
}
