/**
 * The contents of a bag item (sheets/item-sheet.mjs): copies of items kept
 * as plain data in the bag's `system.content` list, identified by their
 * `_id` field, and the sheet's drop, remove, edit, add and drag-start
 * handlers on that list. Item lookup by uuid and fresh ids come from the
 * host and are parameters.
 */
module BagContents {
  import opened Wrappers

  /** One stored item: its plain-data fields by name. */
  type Entry = map<string, string>

  const IdKey: string := "_id"

  /** `entry._id`, `None` when the field is absent (`undefined`). */
  function IdOf(e: Entry): (r: Option<string>)
    ensures r.Some? <==> IdKey in e
    ensures r.Some? ==> r.value == e[IdKey]
  {
    if IdKey in e then Some(e[IdKey]) else None
  }

  /** Index of the first entry whose `_id` equals `id` (`findIndex`); both sides may be
      `undefined`, and `undefined === undefined`. */
  function FindIndex(content: seq<Entry>, id: Option<string>): (r: Option<nat>)
    ensures r.Some? ==> r.value < |content| && IdOf(content[r.value]) == id
    ensures r.Some? ==> forall j :: 0 <= j < r.value ==> IdOf(content[j]) != id
    ensures r.None? <==> forall j :: 0 <= j < |content| ==> IdOf(content[j]) != id
  {
    if content == [] then None
    else if IdOf(content[0]) == id then Some(0)
    else match FindIndex(content[1..], id)
      case None => None
      case Some(k) => Some(k + 1)
  }

  /** `find`: the first entry with that id. */
  function Find(content: seq<Entry>, id: Option<string>): (r: Option<Entry>)
    ensures r.Some? <==> exists j :: 0 <= j < |content| && IdOf(content[j]) == id
    ensures r.Some? ==> r.value in content && IdOf(r.value) == id
  {
    match FindIndex(content, id)
    case None => None
    case Some(i) => Some(content[i])
  }

  predicate Fresh(content: seq<Entry>, id: string) {
    forall j :: 0 <= j < |content| ==> IdOf(content[j]) != Some(id)
  }

  // ---------------------------------------------------------------------------
  // Drop

  /** The drop event's text: unparsable, or an object with optional `type` and `uuid`. */
  datatype DropPayload = Unparsable | Parsed(kind: Option<string>, uuid: Option<string>)

  /** `_onDropItem`: a parsed `Item` payload whose uuid resolves is copied into the bag under a
      fresh `_id`; any other drop leaves the bag as it was (`None`, no update). A bag without
      content starts from the empty list. */
  function Drop(content: Option<seq<Entry>>, payload: DropPayload,
                resolve: Option<string> -> Option<Entry>, freshId: string): (r: Option<seq<Entry>>)
    ensures r.Some? <==> payload.Parsed? && payload.kind == Some("Item") && resolve(payload.uuid).Some?
    ensures r.Some? ==> var before := content.GetOr([]);
              && |r.value| == |before| + 1
              && r.value[..|before|] == before
              && r.value[|before|] == resolve(payload.uuid).value[IdKey := freshId]
  {
    if payload.Unparsable? || payload.kind != Some("Item") then None
    else match resolve(payload.uuid)
      case None => None
      case Some(item) => Some(content.GetOr([]) + [item[IdKey := freshId]])
  }

  // ---------------------------------------------------------------------------
  // Remove, edit, add

  /** `_onRemoveItem` once confirmed: every entry whose `_id` differs from `id` is kept
      (`RemoveAppend` gives the order and multiplicity). */
  function Remove(content: seq<Entry>, id: Option<string>): (r: seq<Entry>)
    ensures |r| <= |content|
    ensures forall e :: e in r ==> e in content && IdOf(e) != id
    ensures forall e :: e in content && IdOf(e) != id ==> e in r
  {
    if content == [] then []
    else if IdOf(content[0]) != id then [content[0]] + Remove(content[1..], id)
    else Remove(content[1..], id)
  }

  /** Removing twice is removing once. */
  lemma {:induction false} RemoveIdempotent(content: seq<Entry>, id: Option<string>)
    ensures Remove(Remove(content, id), id) == Remove(content, id)
  {
    if content != [] {
      RemoveIdempotent(content[1..], id);
      if IdOf(content[0]) != id {
        var rest := Remove(content[1..], id);
        assert ([content[0]] + rest)[1..] == rest;
      }
    }
  }

  /** Removing an id no entry carries changes nothing. */
  lemma {:induction false} RemoveAbsent(content: seq<Entry>, id: Option<string>)
    requires forall j :: 0 <= j < |content| ==> IdOf(content[j]) != id
    ensures Remove(content, id) == content
  {
    if content != [] {
      RemoveAbsent(content[1..], id);
      assert [content[0]] + content[1..] == content;
    }
  }

  lemma {:induction false} RemoveAppend(content: seq<Entry>, e: Entry, id: Option<string>)
    ensures Remove(content + [e], id) == Remove(content, id) + (if IdOf(e) != id then [e] else [])
  {
    if content == [] {
      assert content + [e] == [e];
      assert [e][1..] == [];
    } else {
      assert (content + [e])[0] == content[0];
      assert (content + [e])[1..] == content[1..] + [e];
      RemoveAppend(content[1..], e, id);
    }
  }

  /** Removing what was just dropped under a fresh id gives the bag back. */
  lemma RemoveUndoesDrop(content: seq<Entry>, payload: DropPayload,
                         resolve: Option<string> -> Option<Entry>, freshId: string)
    requires Fresh(content, freshId)
    requires Drop(Some(content), payload, resolve, freshId).Some?
    ensures Remove(Drop(Some(content), payload, resolve, freshId).value, Some(freshId)) == content
  {
    var item := resolve(payload.uuid).value[IdKey := freshId];
    assert IdOf(item) == Some(freshId);
    RemoveAppend(content, item, Some(freshId));
    RemoveAbsent(content, Some(freshId));
  }

  /** `_onEditItem` on submit: the form's fields are written over the first entry with that
      id; when there is none, nothing is updated (`None`). */
  function Edit(content: seq<Entry>, id: Option<string>, submitted: Entry): (r: Option<seq<Entry>>)
    ensures r.None? <==> forall j :: 0 <= j < |content| ==> IdOf(content[j]) != id
    ensures r.Some? ==> |r.value| == |content|
    ensures r.Some? ==> var i := FindIndex(content, id).value;
              && r.value[i].Keys == content[i].Keys + submitted.Keys
              && (forall k :: k in submitted ==> r.value[i][k] == submitted[k])
              && (forall k :: k in content[i] && k !in submitted ==> r.value[i][k] == content[i][k])
              && (forall j :: 0 <= j < |content| && j != i ==> r.value[j] == content[j])
  {
    match FindIndex(content, id)
    case None => None
    case Some(i) => Some(content[i := content[i] + submitted])
  }

  /** Submitting the same form twice is submitting it once. */
  lemma EditIdempotent(content: seq<Entry>, id: Option<string>, submitted: Entry)
    requires IdKey !in submitted
    requires Edit(content, id, submitted).Some?
    ensures Edit(Edit(content, id, submitted).value, id, submitted) == Edit(content, id, submitted)
  {
    var i := FindIndex(content, id).value;
    var once := Edit(content, id, submitted).value;
    assert IdOf(once[i]) == IdOf(content[i]);
    assert FindIndex(once, id) == Some(i) by {
      assert forall j :: 0 <= j < i ==> once[j] == content[j];
    }
    assert once[i] + submitted == once[i];
    assert once[i := once[i]] == once;
  }

  /** `_onAddItem` on submit: the submitted form is appended. */
  function Add(content: seq<Entry>, submitted: Entry): (r: seq<Entry>)
    ensures |r| == |content| + 1 && r[..|content|] == content && r[|content|] == submitted
  {
    content + [submitted]
  }

  /** Removing by the added entry's id drops it along with everything else carrying that id. */
  lemma RemoveAfterAdd(content: seq<Entry>, submitted: Entry)
    ensures Remove(Add(content, submitted), IdOf(submitted)) == Remove(content, IdOf(submitted))
  {
    RemoveAppend(content, submitted, IdOf(submitted));
  }

  /** An added form without an `_id` can never be the one a drag picks up. */
  lemma AddedWithoutIdIsNeverDragged(content: seq<Entry>, submitted: Entry, hasTransfer: bool, id: Option<string>)
    requires IdKey !in submitted
    requires DragStart(Add(content, submitted), hasTransfer, id).Some?
    ensures DragStart(Add(content, submitted), hasTransfer, id).value.data in content
  {
    var after := Add(content, submitted);
    var i := FindIndex(after, id).value;
    assert IdOf(after[|content|]).None?;
    assert after[i] == content[i];
  }

  // ---------------------------------------------------------------------------
  // Drag start

  /** What a drag from the bag puts on the transfer: `{type: "Item", data: entry}`. */
  datatype DragData = DragData(kind: string, data: Entry)

  /** `_onDragStartItem`: no payload without a transfer object, without a (non-empty) id, or
      when no entry carries it. */
  function DragStart(content: seq<Entry>, hasTransfer: bool, id: Option<string>): (r: Option<DragData>)
    ensures r.Some? <==> hasTransfer && id.Some? && id.value != ""
                         && exists j :: 0 <= j < |content| && IdOf(content[j]) == id
    ensures r.Some? ==> r.value.kind == "Item" && r.value.data in content && IdOf(r.value.data) == id
  {
    if !hasTransfer || id.None? || id.value == "" then None
    else match Find(content, id)
      case None => None
      case Some(e) => Some(DragData("Item", e))
  }

  /** How a drop handler reads a drag payload back: `type` is there, `uuid` is not. */
  function AsDropPayload(d: DragData): (p: DropPayload)
    ensures p.Parsed? && p.kind == Some(d.kind) && p.uuid.None?
  {
    Parsed(Some(d.kind), None)
  }

  /** A bag entry dragged onto a bag sheet is looked up with an undefined uuid: when the host
      resolves nothing for it, the drop changes nothing. */
  lemma DragToBagResolvesNoUuid(content: seq<Entry>, target: Option<seq<Entry>>, id: Option<string>,
                                resolve: Option<string> -> Option<Entry>, freshId: string)
    requires DragStart(content, true, id).Some?
    requires resolve(None).None?
    ensures Drop(target, AsDropPayload(DragStart(content, true, id).value), resolve, freshId).None?
  {
  }
}
