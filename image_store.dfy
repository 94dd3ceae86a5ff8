/**
 * The supplier's product-image rows and the nested write the editor's update
 * branch performs on them: delete every row the updates do not name, apply
 * each update in order (a row that receives a new blob is given a fresh id),
 * then create the new images. Ids drawn from the id generator are inputs;
 * the lemmas assume what the generator guarantees, that they are fresh.
 */
module ImageStore {
  import opened Common
  import opened ImagePlan

  /** A stored product image (its id is the key of the map of rows). */
  datatype ImageRow = ImageRow(altText: Option<string>, blob: Blob)

  /** One supplier's product images, by id. */
  type ImageRows = map<string, ImageRow>

  /** The ids the updates name. */
  function UpdateIds(us: seq<ImageUpdate>): (ids: set<string>)
    ensures forall i :: 0 <= i < |us| ==> us[i].id in ids
    ensures forall k :: k in ids ==> exists i :: 0 <= i < |us| && us[i].id == k
  {
    set i | 0 <= i < |us| :: us[i].id
  }

  /** `deleteMany: { id: { notIn: ids } }`: the rows whose id is in `keep`. */
  function Retain(rows: ImageRows, keep: set<string>): (r: ImageRows)
    ensures r.Keys == rows.Keys * keep
    ensures forall k :: k in r ==> r[k] == rows[k]
  {
    map k | k in rows && k in keep :: rows[k]
  }

  /**
   * The row after an update: an absent alt text leaves the stored one (an
   * undefined field is not written), an absent blob leaves the stored content.
   */
  function UpdatedRow(row: ImageRow, u: ImageUpdate): ImageRow {
    ImageRow(if u.altText.Some? then u.altText else row.altText,
             if u.blob.Some? then u.blob.value else row.blob)
  }

  /** One `updateMany` entry: nothing if no row has the id; otherwise update in place, or move to `freshId` when a blob comes with it. */
  function ApplyUpdate(rows: ImageRows, u: ImageUpdate, freshId: string): ImageRows {
    if u.id !in rows then rows
    else if u.blob.Some? then (rows - {u.id})[freshId := UpdatedRow(rows[u.id], u)]
    else rows[u.id := UpdatedRow(rows[u.id], u)]
  }

  /** The `updateMany` entries applied in order; `drawn[i]` is the id drawn for `us[i]`. */
  function ApplyUpdates(rows: ImageRows, us: seq<ImageUpdate>, drawn: seq<string>): ImageRows
    requires |drawn| == |us|
    decreases |us|
  {
    if us == [] then rows
    else ApplyUpdates(ApplyUpdate(rows, us[0], drawn[0]), us[1..], drawn[1..])
  }

  function NewRow(n: NewImage): ImageRow {
    ImageRow(n.altText, n.blob)
  }

  /** `create: newImages`; `ids[j]` is the id generated for `news[j]`. */
  function CreateAll(rows: ImageRows, news: seq<NewImage>, ids: seq<string>): ImageRows
    requires |ids| == |news|
    decreases |news|
  {
    if news == [] then rows
    else CreateAll(rows[ids[0] := NewRow(news[0])], news[1..], ids[1..])
  }

  /** The whole nested write of the update branch. */
  function Reconciled(rows: ImageRows, us: seq<ImageUpdate>, news: seq<NewImage>,
                      drawn: seq<string>, newIds: seq<string>): ImageRows
    requires |drawn| == |us| && |newIds| == |news|
  {
    CreateAll(ApplyUpdates(Retain(rows, UpdateIds(us)), us, drawn), news, newIds)
  }

  /** The drawn ids are distinct and clash with no stored row and no updated id. */
  predicate UpdateIdsFresh(rows: ImageRows, us: seq<ImageUpdate>, drawn: seq<string>)
    requires |drawn| == |us|
  {
    Distinct(drawn) && forall i :: 0 <= i < |drawn| ==> drawn[i] !in rows && drawn[i] !in UpdateIds(us)
  }

  /** What the id generator guarantees for the whole nested write. */
  predicate FreshFor(rows: ImageRows, us: seq<ImageUpdate>, drawn: seq<string>, newIds: seq<string>)
    requires |drawn| == |us|
  {
    && UpdateIdsFresh(rows, us, drawn)
    && Distinct(newIds)
    && (forall j :: 0 <= j < |newIds| ==> newIds[j] !in rows && newIds[j] !in UpdateIds(us))
    && (forall i, j :: 0 <= i < |drawn| && 0 <= j < |newIds| ==> drawn[i] != newIds[j])
  }

  lemma UpdateIdsCons(us: seq<ImageUpdate>)
    requires us != []
    ensures UpdateIds(us) == {us[0].id} + UpdateIds(us[1..])
  {
    forall k | k in UpdateIds(us) ensures k in {us[0].id} + UpdateIds(us[1..]) {
      var i :| 0 <= i < |us| && us[i].id == k;
      if i > 0 { assert us[1..][i - 1] == us[i]; }
    }
  }

  /** Freshness is kept for the remaining updates after the first is applied. */
  lemma UpdateIdsFreshTail(rows: ImageRows, us: seq<ImageUpdate>, drawn: seq<string>)
    requires |drawn| == |us| && us != []
    requires UpdateIdsFresh(rows, us, drawn)
    ensures UpdateIdsFresh(ApplyUpdate(rows, us[0], drawn[0]), us[1..], drawn[1..])
  {
    UpdateIdsCons(us);
    var rows' := ApplyUpdate(rows, us[0], drawn[0]);
    forall i | 0 <= i < |drawn[1..]|
      ensures drawn[1..][i] !in rows' && drawn[1..][i] !in UpdateIds(us[1..])
    {
      assert drawn[1..][i] == drawn[i + 1];
      assert drawn[i + 1] != drawn[0];
    }
  }

  /** A stored row no update names is kept as it is. */
  lemma {:induction false} ApplyUpdatesKeepsUnnamed(rows: ImageRows, us: seq<ImageUpdate>, drawn: seq<string>)
    requires |drawn| == |us|
    requires UpdateIdsFresh(rows, us, drawn)
    decreases |us|
    ensures forall k :: k in rows && k !in UpdateIds(us) ==>
      k in ApplyUpdates(rows, us, drawn) && ApplyUpdates(rows, us, drawn)[k] == rows[k]
  {
    if us != [] {
      var rows' := ApplyUpdate(rows, us[0], drawn[0]);
      UpdateIdsFreshTail(rows, us, drawn);
      UpdateIdsCons(us);
      ApplyUpdatesKeepsUnnamed(rows', us[1..], drawn[1..]);
      assert ApplyUpdates(rows, us, drawn) == ApplyUpdates(rows', us[1..], drawn[1..]);
    }
  }

  /** Every id after the updates was stored or drawn. */
  lemma {:induction false} ApplyUpdatesKeysDrawn(rows: ImageRows, us: seq<ImageUpdate>, drawn: seq<string>)
    requires |drawn| == |us|
    decreases |us|
    ensures forall k :: k in ApplyUpdates(rows, us, drawn) ==> k in rows || k in Elements(drawn)
  {
    if us != [] {
      var rows' := ApplyUpdate(rows, us[0], drawn[0]);
      ApplyUpdatesKeysDrawn(rows', us[1..], drawn[1..]);
      var r := ApplyUpdates(rows, us, drawn);
      assert r == ApplyUpdates(rows', us[1..], drawn[1..]);
      forall k | k in r ensures k in rows || k in Elements(drawn) {
        if k !in rows' {
          var i :| 0 <= i < |drawn[1..]| && drawn[1..][i] == k;
          assert drawn[i + 1] == k;
        } else if k !in rows {
          assert k == drawn[0];
        }
      }
    }
  }

  /**
   * The frame of the updates: a stored row no update names is kept as it is,
   * and every resulting id was stored or drawn.
   */
  lemma ApplyUpdatesFrame(rows: ImageRows, us: seq<ImageUpdate>, drawn: seq<string>)
    requires |drawn| == |us|
    requires UpdateIdsFresh(rows, us, drawn)
    ensures forall k :: k in rows && k !in UpdateIds(us) ==>
      k in ApplyUpdates(rows, us, drawn) && ApplyUpdates(rows, us, drawn)[k] == rows[k]
    ensures forall k :: k in ApplyUpdates(rows, us, drawn) ==> k in rows || k in Elements(drawn)
  {
    ApplyUpdatesKeepsUnnamed(rows, us, drawn);
    ApplyUpdatesKeysDrawn(rows, us, drawn);
  }

  /** Distinct update ids stay distinct without the first update. */
  lemma DistinctIdsTail(us: seq<ImageUpdate>)
    requires us != [] && Distinct(UpdateIdList(us))
    ensures Distinct(UpdateIdList(us[1..]))
  {
    forall a, b | 0 <= a < b < |us[1..]| ensures us[1..][a].id != us[1..][b].id {
      assert UpdateIdList(us)[a + 1] != UpdateIdList(us)[b + 1];
    }
  }

  /**
   * What happens to the row an update names, when no two updates name the
   * same id: with a blob it moves to the drawn id, without one it stays; an
   * update naming no stored row leaves no trace.
   */
  lemma {:induction false} ApplyUpdatesAt(rows: ImageRows, us: seq<ImageUpdate>, drawn: seq<string>, i: nat)
    requires |drawn| == |us| && i < |us|
    requires UpdateIdsFresh(rows, us, drawn)
    requires Distinct(UpdateIdList(us))
    decreases |us|
    ensures us[i].id in rows && us[i].blob.Some? ==>
      us[i].id !in ApplyUpdates(rows, us, drawn) && drawn[i] in ApplyUpdates(rows, us, drawn) &&
      ApplyUpdates(rows, us, drawn)[drawn[i]] == UpdatedRow(rows[us[i].id], us[i])
    ensures us[i].id in rows && us[i].blob.None? ==>
      us[i].id in ApplyUpdates(rows, us, drawn) &&
      ApplyUpdates(rows, us, drawn)[us[i].id] == UpdatedRow(rows[us[i].id], us[i])
    ensures us[i].id !in rows ==>
      us[i].id !in ApplyUpdates(rows, us, drawn) && drawn[i] !in ApplyUpdates(rows, us, drawn)
  {
    var rows' := ApplyUpdate(rows, us[0], drawn[0]);
    assert ApplyUpdates(rows, us, drawn) == ApplyUpdates(rows', us[1..], drawn[1..]);
    UpdateIdsFreshTail(rows, us, drawn);
    DistinctIdsTail(us);
    if i == 0 {
      FirstUpdateOutcome(rows, us, drawn);
    } else {
      ApplyUpdatesAt(rows', us[1..], drawn[1..], i - 1);
      LaterUpdateUntouched(rows, us, drawn, i);
    }
  }

  /** The first update's row is not touched by the later ones. */
  lemma FirstUpdateOutcome(rows: ImageRows, us: seq<ImageUpdate>, drawn: seq<string>)
    requires |drawn| == |us| && us != []
    requires UpdateIdsFresh(rows, us, drawn)
    requires Distinct(UpdateIdList(us))
    ensures us[0].id in rows && us[0].blob.Some? ==>
      us[0].id !in ApplyUpdates(rows, us, drawn) && drawn[0] in ApplyUpdates(rows, us, drawn) &&
      ApplyUpdates(rows, us, drawn)[drawn[0]] == UpdatedRow(rows[us[0].id], us[0])
    ensures us[0].id in rows && us[0].blob.None? ==>
      us[0].id in ApplyUpdates(rows, us, drawn) &&
      ApplyUpdates(rows, us, drawn)[us[0].id] == UpdatedRow(rows[us[0].id], us[0])
    ensures us[0].id !in rows ==>
      us[0].id !in ApplyUpdates(rows, us, drawn) && drawn[0] !in ApplyUpdates(rows, us, drawn)
  {
    var rows' := ApplyUpdate(rows, us[0], drawn[0]);
    assert ApplyUpdates(rows, us, drawn) == ApplyUpdates(rows', us[1..], drawn[1..]);
    UpdateIdsFreshTail(rows, us, drawn);
    UpdateIdsCons(us);
    DistinctIdsTail(us);
    ApplyUpdatesFrame(rows', us[1..], drawn[1..]);
    assert us[0].id !in UpdateIds(us[1..]) by {
      forall j | 0 <= j < |us[1..]| ensures us[1..][j].id != us[0].id {
        assert UpdateIdList(us)[0] != UpdateIdList(us)[j + 1];
      }
    }
    assert drawn[0] !in UpdateIds(us[1..]);
    assert us[0].id !in Elements(drawn[1..]);
    assert drawn[0] !in Elements(drawn[1..]);
  }

  /** Applying the first update leaves the row and the drawn id of a later update as they were. */
  lemma LaterUpdateUntouched(rows: ImageRows, us: seq<ImageUpdate>, drawn: seq<string>, i: nat)
    requires |drawn| == |us| && 0 < i < |us|
    requires UpdateIdsFresh(rows, us, drawn)
    requires Distinct(UpdateIdList(us))
    ensures us[1..][i - 1] == us[i] && drawn[1..][i - 1] == drawn[i]
    ensures us[i].id in ApplyUpdate(rows, us[0], drawn[0]) <==> us[i].id in rows
    ensures us[i].id in rows ==> ApplyUpdate(rows, us[0], drawn[0])[us[i].id] == rows[us[i].id]
    ensures drawn[i] !in rows
  {
    assert us[i].id != us[0].id by {
      assert UpdateIdList(us)[0] != UpdateIdList(us)[i];
    }
    assert us[i].id in UpdateIds(us);
    assert us[i].id != drawn[0];
  }

  /** Created rows sit under their drawn ids. */
  lemma {:induction false} CreateAllAt(rows: ImageRows, news: seq<NewImage>, ids: seq<string>)
    requires |ids| == |news| && Distinct(ids)
    decreases |news|
    ensures forall j :: 0 <= j < |ids| ==>
      ids[j] in CreateAll(rows, news, ids) && CreateAll(rows, news, ids)[ids[j]] == NewRow(news[j])
  {
    if news != [] {
      var rows' := rows[ids[0] := NewRow(news[0])];
      assert Distinct(ids[1..]) by {
        forall a, b | 0 <= a < b < |ids[1..]| ensures ids[1..][a] != ids[1..][b] {
          assert ids[a + 1] != ids[b + 1];
        }
      }
      CreateAllAt(rows', news[1..], ids[1..]);
      CreateAllFrame(rows', news[1..], ids[1..]);
      forall j | 0 <= j < |ids|
        ensures ids[j] in CreateAll(rows, news, ids) && CreateAll(rows, news, ids)[ids[j]] == NewRow(news[j])
      {
        if j == 0 {
          assert ids[0] !in Elements(ids[1..]);
        } else {
          assert ids[1..][j - 1] == ids[j] && news[1..][j - 1] == news[j];
        }
      }
    }
  }

  /** Creating touches no id other than the drawn ones. */
  lemma {:induction false} CreateAllFrame(rows: ImageRows, news: seq<NewImage>, ids: seq<string>)
    requires |ids| == |news|
    decreases |news|
    ensures forall k :: k !in Elements(ids) ==>
      (k in CreateAll(rows, news, ids) <==> k in rows) &&
      (k in rows ==> CreateAll(rows, news, ids)[k] == rows[k])
  {
    if news != [] {
      CreateAllFrame(rows[ids[0] := NewRow(news[0])], news[1..], ids[1..]);
      forall k | k !in Elements(ids) ensures k !in Elements(ids[1..]) && k != ids[0] {
      }
    }
  }

  /** Every stored image the updates do not name is deleted. */
  lemma ReconcileDeletesUnnamed(rows: ImageRows, us: seq<ImageUpdate>, news: seq<NewImage>,
                                drawn: seq<string>, newIds: seq<string>)
    requires |drawn| == |us| && |newIds| == |news|
    requires FreshFor(rows, us, drawn, newIds)
    ensures forall k :: k in rows && k !in UpdateIds(us) ==> k !in Reconciled(rows, us, news, drawn, newIds)
  {
    var kept := Retain(rows, UpdateIds(us));
    assert UpdateIdsFresh(kept, us, drawn);
    ApplyUpdatesFrame(kept, us, drawn);
    CreateAllFrame(ApplyUpdates(kept, us, drawn), news, newIds);
  }

  /** Every new image is created, under its own fresh id. */
  lemma ReconcileCreatesAll(rows: ImageRows, us: seq<ImageUpdate>, news: seq<NewImage>,
                            drawn: seq<string>, newIds: seq<string>)
    requires |drawn| == |us| && |newIds| == |news|
    requires FreshFor(rows, us, drawn, newIds)
    ensures forall j :: 0 <= j < |news| ==>
      newIds[j] in Reconciled(rows, us, news, drawn, newIds) &&
      Reconciled(rows, us, news, drawn, newIds)[newIds[j]] == NewRow(news[j])
  {
    CreateAllAt(ApplyUpdates(Retain(rows, UpdateIds(us)), us, drawn), news, newIds);
  }

  /**
   * An update of a stored image that carries a blob gives the image a fresh
   * id; one without a blob keeps its id. Either way the row holds the
   * updated alt text and content. An update naming no stored image has no effect.
   */
  lemma ReconcileUpdates(rows: ImageRows, us: seq<ImageUpdate>, news: seq<NewImage>,
                         drawn: seq<string>, newIds: seq<string>, i: nat)
    requires |drawn| == |us| && |newIds| == |news| && i < |us|
    requires FreshFor(rows, us, drawn, newIds)
    requires Distinct(UpdateIdList(us))
    ensures us[i].id in rows && us[i].blob.Some? ==>
      us[i].id !in Reconciled(rows, us, news, drawn, newIds) &&
      drawn[i] in Reconciled(rows, us, news, drawn, newIds) &&
      Reconciled(rows, us, news, drawn, newIds)[drawn[i]] == UpdatedRow(rows[us[i].id], us[i])
    ensures us[i].id in rows && us[i].blob.None? ==>
      us[i].id in Reconciled(rows, us, news, drawn, newIds) &&
      Reconciled(rows, us, news, drawn, newIds)[us[i].id] == UpdatedRow(rows[us[i].id], us[i])
    ensures us[i].id !in rows ==>
      us[i].id !in Reconciled(rows, us, news, drawn, newIds) &&
      drawn[i] !in Reconciled(rows, us, news, drawn, newIds)
  {
    var kept := Retain(rows, UpdateIds(us));
    assert us[i].id in kept <==> us[i].id in rows;
    assert UpdateIdsFresh(kept, us, drawn);
    ApplyUpdatesAt(kept, us, drawn, i);
    CreateAllFrame(ApplyUpdates(kept, us, drawn), news, newIds);
    assert us[i].id !in Elements(newIds);
    assert drawn[i] !in Elements(newIds);
  }

  /** Nothing else appears: every resulting id is a named stored id or a drawn one. */
  lemma ReconcileKeys(rows: ImageRows, us: seq<ImageUpdate>, news: seq<NewImage>,
                      drawn: seq<string>, newIds: seq<string>)
    requires |drawn| == |us| && |newIds| == |news|
    requires FreshFor(rows, us, drawn, newIds)
    ensures forall k :: k in Reconciled(rows, us, news, drawn, newIds) ==>
      (k in rows && k in UpdateIds(us)) || k in Elements(drawn) || k in Elements(newIds)
  {
    var kept := Retain(rows, UpdateIds(us));
    assert UpdateIdsFresh(kept, us, drawn);
    ApplyUpdatesFrame(kept, us, drawn);
    CreateAllFrame(ApplyUpdates(kept, us, drawn), news, newIds);
  }

  /**
   * The nested write as the store performs it, step by step: the delete, each
   * update in order, each create in order.
   */
  method ReconcileImages(rows: ImageRows, us: seq<ImageUpdate>, news: seq<NewImage>,
                         drawn: seq<string>, newIds: seq<string>) returns (result: ImageRows)
    requires |drawn| == |us| && |newIds| == |news|
    ensures result == Reconciled(rows, us, news, drawn, newIds)
  {
    result := map k | k in rows && k in UpdateIds(us) :: rows[k];
    ghost var kept := result;
    var i := 0;
    while i < |us|
      invariant 0 <= i <= |us|
      invariant ApplyUpdates(result, us[i..], drawn[i..]) == ApplyUpdates(kept, us, drawn)
    {
      var u := us[i];
      if u.id in result {
        var row := UpdatedRow(result[u.id], u);
        if u.blob.Some? {
          result := (result - {u.id})[drawn[i] := row];
        } else {
          result := result[u.id := row];
        }
      }
      assert us[i..][1..] == us[i + 1..] && drawn[i..][1..] == drawn[i + 1..];
      i := i + 1;
    }
    ghost var updated := result;
    var j := 0;
    while j < |news|
      invariant 0 <= j <= |news|
      invariant CreateAll(result, news[j..], newIds[j..]) == CreateAll(updated, news, newIds)
    {
      result := result[newIds[j] := NewRow(news[j])];
      assert news[j..][1..] == news[j + 1..] && newIds[j..][1..] == newIds[j + 1..];
      j := j + 1;
    }
  }
}
