/**
 * Active effects as the sheets manage them (helpers/effects.mjs): the
 * three-way partition shown on a sheet, and the `create` and `toggle`
 * actions of the effect controls.
 */
module ActiveEffects {
  import opened Wrappers

  /** A duration counter; `None` when the field is unset (`null` in the host). */
  type Counter = Option<nat>

  /** An active effect, restricted to the fields this system reads or writes. */
  datatype Effect = Effect(id: string, name: string, disabled: bool, turns: Counter, rounds: Counter)

  datatype Category = Temporary | Passive | Inactive

  /** The three lists of `prepareActiveEffectCategories`. */
  datatype Categories = Categories(temporary: seq<Effect>, passive: seq<Effect>, inactive: seq<Effect>)

  /** Where one effect goes: `disabled` first, then the host's `isTemporary`. */
  function CategoryOf(e: Effect, isTemporary: Effect -> bool): (c: Category)
    ensures c == Inactive <==> e.disabled
    ensures c == Temporary <==> !e.disabled && isTemporary(e)
    ensures c == Passive <==> !e.disabled && !isTemporary(e)
  {
    if e.disabled then Inactive
    else if isTemporary(e) then Temporary
    else Passive
  }

  /** The effects of `es` in category `c`, in their original order (`SelectAppend` gives the
      order and multiplicity). */
  function Select(es: seq<Effect>, c: Category, isTemporary: Effect -> bool): (r: seq<Effect>)
    ensures |r| <= |es|
    ensures forall e :: e in r ==> e in es && CategoryOf(e, isTemporary) == c
    ensures forall e :: e in es && CategoryOf(e, isTemporary) == c ==> e in r
  {
    if es == [] then []
    else if CategoryOf(es[0], isTemporary) == c then [es[0]] + Select(es[1..], c, isTemporary)
    else Select(es[1..], c, isTemporary)
  }

  /** Every effect lands in exactly one of the three categories. */
  lemma {:induction false} SelectPartitions(es: seq<Effect>, isTemporary: Effect -> bool)
    ensures |Select(es, Temporary, isTemporary)| + |Select(es, Passive, isTemporary)|
            + |Select(es, Inactive, isTemporary)| == |es|
  {
    if es != [] {
      SelectPartitions(es[1..], isTemporary);
    }
  }

  /** `prepareActiveEffectCategories`: one pass, pushing each effect onto its list. */
  method PrepareActiveEffectCategories(es: seq<Effect>, isTemporary: Effect -> bool)
    returns (r: Categories)
    ensures r.temporary == Select(es, Temporary, isTemporary)
    ensures r.passive == Select(es, Passive, isTemporary)
    ensures r.inactive == Select(es, Inactive, isTemporary)
    ensures |r.temporary| + |r.passive| + |r.inactive| == |es|
  {
    var temporary, passive, inactive := [], [], [];
    var i := 0;
    while i < |es|
      invariant 0 <= i <= |es|
      invariant temporary == Select(es[..i], Temporary, isTemporary)
      invariant passive == Select(es[..i], Passive, isTemporary)
      invariant inactive == Select(es[..i], Inactive, isTemporary)
    {
      var e := es[i];
      SelectAppend(es[..i], e, isTemporary);
      if e.disabled {
        inactive := inactive + [e];
      } else if isTemporary(e) {
        temporary := temporary + [e];
      } else {
        passive := passive + [e];
      }
      assert es[..i + 1] == es[..i] + [e];
      i := i + 1;
    }
    assert es[..i] == es;
    r := Categories(temporary, passive, inactive);
    SelectPartitions(es, isTemporary);
  }

  /** Selecting from a list extended by one effect extends exactly that effect's category. */
  lemma {:induction false} SelectAppend(es: seq<Effect>, e: Effect, isTemporary: Effect -> bool)
    ensures forall c :: Select(es + [e], c, isTemporary)
                        == Select(es, c, isTemporary) + (if CategoryOf(e, isTemporary) == c then [e] else [])
  {
    if es == [] {
      assert es + [e] == [e];
      assert [e][1..] == [];
    } else {
      assert (es + [e])[0] == es[0];
      assert (es + [e])[1..] == es[1..] + [e];
      SelectAppend(es[1..], e, isTemporary);
    }
  }

  // ---------------------------------------------------------------------------
  // Effect controls

  /** The fields the `create` control sends for a new effect. */
  datatype NewEffectData = NewEffectData(name: string, img: string, origin: string,
                                         rounds: Counter, disabled: bool)

  const NewEffectIcon: string := "icons/svg/aura.svg"

  /** The `create` control: the row's `effectType` decides duration and state. */
  function CreateEffectData(effectType: Option<string>, ownerUuid: string, localizedName: string)
    : (d: NewEffectData)
    ensures d.rounds == Some(1) <==> effectType == Some("temporary")
    ensures d.rounds.None? <==> effectType != Some("temporary")
    ensures d.disabled <==> effectType == Some("inactive")
    ensures d.origin == ownerUuid && d.name == localizedName && d.img == NewEffectIcon
  {
    NewEffectData(
      localizedName, NewEffectIcon, ownerUuid,
      if effectType == Some("temporary") then Some(1) else None,
      effectType == Some("inactive"))
  }

  /** The effect the host creates from that data; its `turns` stays unset. */
  function CreatedEffect(d: NewEffectData, id: string): (e: Effect)
    ensures e.id == id && e.name == d.name && e.disabled == d.disabled
    ensures e.rounds == d.rounds && e.turns.None?
  {
    Effect(id, d.name, d.disabled, None, d.rounds)
  }

  /** An effect created from an `inactive` row is listed as inactive whatever its duration. */
  lemma CreatedInactiveIsInactive(ownerUuid: string, name: string, id: string, isTemporary: Effect -> bool)
    ensures CategoryOf(CreatedEffect(CreateEffectData(Some("inactive"), ownerUuid, name), id), isTemporary)
            == Inactive
  {
  }

  /** The `toggle` control flips `disabled` and nothing else. */
  function Toggle(e: Effect): (r: Effect)
    ensures r.disabled == !e.disabled
    ensures r.(disabled := e.disabled) == e
  {
    e.(disabled := !e.disabled)
  }

  /** Toggling twice restores the effect. */
  lemma ToggleTwice(e: Effect)
    ensures Toggle(Toggle(e)) == e
  {
  }

  /** Toggling moves an effect into or out of `inactive`. */
  lemma ToggleSwitchesInactive(e: Effect, isTemporary: Effect -> bool)
    requires isTemporary(Toggle(e)) == isTemporary(e)
    ensures CategoryOf(Toggle(e), isTemporary) == Inactive <==> CategoryOf(e, isTemporary) != Inactive
    ensures CategoryOf(e, isTemporary) == Inactive ==>
              CategoryOf(Toggle(e), isTemporary) == (if isTemporary(e) then Temporary else Passive)
  {
  }

  /** Index of the first effect with id `id`, as the collection's `get` finds it. */
  function IndexOfId(es: seq<Effect>, id: string): (r: Option<nat>)
    ensures r.Some? ==> r.value < |es| && es[r.value].id == id
    ensures r.Some? ==> forall j :: 0 <= j < r.value ==> es[j].id != id
    ensures r.None? ==> forall j :: 0 <= j < |es| ==> es[j].id != id
  {
    if es == [] then None
    else if es[0].id == id then Some(0)
    else match IndexOfId(es[1..], id)
      case None => None
      case Some(k) => Some(k + 1)
  }

  /** The `toggle` control on an owner's effects: the effect the id names is toggled and
      every other one kept; an unknown id changes nothing. */
  function ToggleById(es: seq<Effect>, id: string): (r: seq<Effect>)
    ensures |r| == |es|
    ensures forall j :: 0 <= j < |es| ==> r[j].id == es[j].id
    ensures (forall j :: 0 <= j < |es| ==> es[j].id != id) ==> r == es
    ensures forall i :: 0 <= i < |es| && es[i].id == id && (forall j :: 0 <= j < i ==> es[j].id != id) ==>
              r[i] == Toggle(es[i]) && (forall j :: 0 <= j < |es| && j != i ==> r[j] == es[j])
  {
    match IndexOfId(es, id)
    case None => es
    case Some(i) => es[i := Toggle(es[i])]
  }

  /** Toggling the same effect twice restores the owner's effects. */
  lemma ToggleByIdTwice(es: seq<Effect>, id: string)
    ensures ToggleById(ToggleById(es, id), id) == es
  {
    var once := ToggleById(es, id);
    match IndexOfId(es, id)
    case None =>
    case Some(i) =>
      assert forall j :: 0 <= j < i ==> once[j].id != id;
      assert once[i].id == id;
      assert ToggleById(once, id)[i] == Toggle(once[i]);
  }

  /** The `create` control on an owner's effects: one effect appended, the rest kept. */
  function CreateEffect(es: seq<Effect>, effectType: Option<string>, ownerUuid: string,
                        localizedName: string, freshId: string): (r: seq<Effect>)
    ensures |r| == |es| + 1 && r[..|es|] == es
    ensures r[|es|].turns.None?
    ensures r[|es|].rounds == Some(1) <==> effectType == Some("temporary")
    ensures r[|es|].disabled <==> effectType == Some("inactive")
  {
    es + [CreatedEffect(CreateEffectData(effectType, ownerUuid, localizedName), freshId)]
  }

  /** The `delete` control once confirmed: the effect with that id is removed (`DeleteAppend`
      gives the order and multiplicity). With no such effect the dialog's text reads the name
      of `undefined` (unknown id) or `null` (no id on the row) and nothing is deleted. */
  function DeleteById(es: seq<Effect>, id: string): (r: seq<Effect>)
    ensures |r| <= |es|
    ensures forall e :: e in r ==> e in es && e.id != id
    ensures forall e :: e in es && e.id != id ==> e in r
  {
    if es == [] then []
    else if es[0].id == id then DeleteById(es[1..], id)
    else [es[0]] + DeleteById(es[1..], id)
  }

  lemma {:induction false} DeleteAbsent(es: seq<Effect>, id: string)
    requires forall j :: 0 <= j < |es| ==> es[j].id != id
    ensures DeleteById(es, id) == es
  {
    if es != [] {
      DeleteAbsent(es[1..], id);
      assert [es[0]] + es[1..] == es;
    }
  }

  lemma {:induction false} DeleteAppend(es: seq<Effect>, e: Effect, id: string)
    ensures DeleteById(es + [e], id) == DeleteById(es, id) + (if e.id != id then [e] else [])
  {
    if es == [] {
      assert es + [e] == [e];
      assert [e][1..] == [];
    } else {
      assert (es + [e])[0] == es[0];
      assert (es + [e])[1..] == es[1..] + [e];
      DeleteAppend(es[1..], e, id);
    }
  }

  /** Deleting a just-created effect by its fresh id restores the owner's effects. */
  lemma DeleteUndoesCreate(es: seq<Effect>, effectType: Option<string>, ownerUuid: string,
                           localizedName: string, freshId: string)
    requires forall j :: 0 <= j < |es| ==> es[j].id != freshId
    ensures DeleteById(CreateEffect(es, effectType, ownerUuid, localizedName, freshId), freshId) == es
  {
    var e := CreatedEffect(CreateEffectData(effectType, ownerUuid, localizedName), freshId);
    DeleteAppend(es, e, freshId);
    DeleteAbsent(es, freshId);
  }
}
