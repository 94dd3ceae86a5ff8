/**
 * How the editor action turns the submitted image fieldsets into a plan:
 * `imageUpdates` (fieldsets that name an existing image) and `newImages`
 * (fieldsets that bring a file and no id).
 */
module ImagePlan {
  import opened Common
  import opened SupplierForm

  /** `imageHasFile`: a file is present and it is not empty. */
  predicate ImageHasFile(f: ImageFieldset) {
    f.file.Some? && f.file.value.Size() > 0
  }

  /** `imageHasId`: the id is not null/undefined (an empty string counts as an id). */
  predicate ImageHasId(f: ImageFieldset) {
    f.id.Some?
  }

  /** The `!i.id` filter of the new-images list: the id is missing or empty. */
  predicate IdIsFalsy(f: ImageFieldset) {
    !TruthyOpt(f.id)
  }

  /** An image's content as stored: MIME type and bytes. */
  datatype Blob = Blob(contentType: string, bytes: seq<bv8>)

  /** One image update; `blob` is present only when the fieldset brought a file. */
  datatype ImageUpdate = ImageUpdate(id: string, altText: Option<string>, blob: Option<Blob>)

  /** One image to create. */
  datatype NewImage = NewImage(altText: Option<string>, blob: Blob)

  function BlobOf(u: Upload): Blob {
    Blob(u.contentType, u.bytes)
  }

  /** The update a fieldset with an id stands for. */
  function ToUpdate(f: ImageFieldset): (u: ImageUpdate)
    requires ImageHasId(f)
    ensures u.id == f.id.value && u.altText == f.altText
    ensures u.blob.Some? <==> ImageHasFile(f)
    ensures u.blob.Some? ==> u.blob.value.bytes == f.file.value.bytes && u.blob.value.contentType == f.file.value.contentType
  {
    if ImageHasFile(f) then ImageUpdate(f.id.value, f.altText, Some(BlobOf(f.file.value)))
    else ImageUpdate(f.id.value, f.altText, None)
  }

  /** The image a fieldset with a file stands for. */
  function ToNew(f: ImageFieldset): (n: NewImage)
    requires ImageHasFile(f)
    ensures n.altText == f.altText && n.blob == BlobOf(f.file.value)
  {
    NewImage(f.altText, BlobOf(f.file.value))
  }

  /** `productImages.filter(imageHasId).map(...)`. */
  function ImageUpdates(fs: seq<ImageFieldset>): (r: seq<ImageUpdate>)
    ensures |r| <= |fs|
  {
    if fs == [] then []
    else (if ImageHasId(fs[0]) then [ToUpdate(fs[0])] else []) + ImageUpdates(fs[1..])
  }

  /** `productImages.filter(imageHasFile).filter((i) => !i.id).map(...)`. */
  function NewImages(fs: seq<ImageFieldset>): (r: seq<NewImage>)
    ensures |r| <= |fs|
  {
    if fs == [] then []
    else (if ImageHasFile(fs[0]) && IdIsFalsy(fs[0]) then [ToNew(fs[0])] else []) + NewImages(fs[1..])
  }

  /** The ids the updates name, in order. */
  function UpdateIdList(us: seq<ImageUpdate>): (ids: seq<string>)
    ensures |ids| == |us|
    ensures forall i :: 0 <= i < |us| ==> ids[i] == us[i].id
  {
    seq(|us|, i requires 0 <= i < |us| => us[i].id)
  }

  /** The update list of a concatenation is the concatenation of the update lists (order is kept). */
  lemma {:induction false} ImageUpdatesAppend(a: seq<ImageFieldset>, b: seq<ImageFieldset>)
    ensures ImageUpdates(a + b) == ImageUpdates(a) + ImageUpdates(b)
  {
    if a == [] {
      assert a + b == b;
    } else {
      var head := if ImageHasId(a[0]) then [ToUpdate(a[0])] else [];
      assert (a + b)[0] == a[0];
      assert (a + b)[1..] == a[1..] + b;
      assert ImageUpdates(a + b) == head + ImageUpdates(a[1..] + b);
      ImageUpdatesAppend(a[1..], b);
      assert ImageUpdates(a) == head + ImageUpdates(a[1..]);
    }
  }

  /** The new-image list of a concatenation is the concatenation of the lists (order is kept). */
  lemma {:induction false} NewImagesAppend(a: seq<ImageFieldset>, b: seq<ImageFieldset>)
    ensures NewImages(a + b) == NewImages(a) + NewImages(b)
  {
    if a == [] {
      assert a + b == b;
    } else {
      var head := if ImageHasFile(a[0]) && IdIsFalsy(a[0]) then [ToNew(a[0])] else [];
      assert (a + b)[0] == a[0];
      assert (a + b)[1..] == a[1..] + b;
      assert NewImages(a + b) == head + NewImages(a[1..] + b);
      NewImagesAppend(a[1..], b);
      assert NewImages(a) == head + NewImages(a[1..]);
    }
  }

  /**
   * Where a single fieldset goes: an update exactly when it has an id, and a
   * new image exactly when it has a non-empty file and a missing or empty id.
   * With the append lemmas this pins both lists down completely.
   */
  lemma Classify(f: ImageFieldset)
    ensures ImageUpdates([f]) == if ImageHasId(f) then [ToUpdate(f)] else []
    ensures NewImages([f]) == if ImageHasFile(f) && IdIsFalsy(f) then [ToNew(f)] else []
  {
    assert [f][1..] == [];
  }

  /** An update is in the list exactly when some fieldset with an id yields it. */
  lemma {:induction false} ImageUpdatesMembers(fs: seq<ImageFieldset>, u: ImageUpdate)
    ensures u in ImageUpdates(fs) <==> exists i :: 0 <= i < |fs| && ImageHasId(fs[i]) && ToUpdate(fs[i]) == u
  {
    if fs != [] {
      ImageUpdatesMembers(fs[1..], u);
      if exists i :: 0 <= i < |fs[1..]| && ImageHasId(fs[1..][i]) && ToUpdate(fs[1..][i]) == u {
        var i :| 0 <= i < |fs[1..]| && ImageHasId(fs[1..][i]) && ToUpdate(fs[1..][i]) == u;
        assert ImageHasId(fs[i + 1]) && ToUpdate(fs[i + 1]) == u;
      }
      if exists i :: 0 <= i < |fs| && ImageHasId(fs[i]) && ToUpdate(fs[i]) == u {
        var i :| 0 <= i < |fs| && ImageHasId(fs[i]) && ToUpdate(fs[i]) == u;
        if i > 0 {
          assert fs[1..][i - 1] == fs[i];
        }
      }
    }
  }

  /** The number of updates is the number of fieldsets with an id. */
  function CountWithId(fs: seq<ImageFieldset>): nat {
    if fs == [] then 0 else (if ImageHasId(fs[0]) then 1 else 0) + CountWithId(fs[1..])
  }

  lemma {:induction false} ImageUpdatesCount(fs: seq<ImageFieldset>)
    ensures |ImageUpdates(fs)| == CountWithId(fs)
  {
    if fs != [] {
      ImageUpdatesCount(fs[1..]);
    }
  }

  /** A new image is in the list exactly when some fieldset with a file and no (or an empty) id yields it. */
  lemma {:induction false} NewImagesMembers(fs: seq<ImageFieldset>, n: NewImage)
    ensures n in NewImages(fs) <==>
      exists i :: 0 <= i < |fs| && ImageHasFile(fs[i]) && IdIsFalsy(fs[i]) && ToNew(fs[i]) == n
  {
    if fs != [] {
      NewImagesMembers(fs[1..], n);
      if exists i :: 0 <= i < |fs[1..]| && ImageHasFile(fs[1..][i]) && IdIsFalsy(fs[1..][i]) && ToNew(fs[1..][i]) == n {
        var i :| 0 <= i < |fs[1..]| && ImageHasFile(fs[1..][i]) && IdIsFalsy(fs[1..][i]) && ToNew(fs[1..][i]) == n;
        assert fs[i + 1] == fs[1..][i];
      }
      if exists i :: 0 <= i < |fs| && ImageHasFile(fs[i]) && IdIsFalsy(fs[i]) && ToNew(fs[i]) == n {
        var i :| 0 <= i < |fs| && ImageHasFile(fs[i]) && IdIsFalsy(fs[i]) && ToNew(fs[i]) == n;
        if i > 0 {
          assert fs[1..][i - 1] == fs[i];
        }
      }
    }
  }

  /** An empty file counts as no file: the fieldset is not a new image. */
  lemma EmptyFileIsNoFile(id: Option<string>, contentType: string, altText: Option<string>)
    ensures !ImageHasFile(ImageFieldset(id, Some(Upload(contentType, [])), altText))
    ensures NewImages([ImageFieldset(id, Some(Upload(contentType, [])), altText)]) == []
  {
    Classify(ImageFieldset(id, Some(Upload(contentType, [])), altText));
  }

  /** A fieldset with neither id nor file is in neither list. */
  lemma NeitherIdNorFile(f: ImageFieldset)
    requires f.id.None? && !ImageHasFile(f)
    ensures ImageUpdates([f]) == [] && NewImages([f]) == []
  {
    Classify(f);
  }

  /**
   * An empty-string id with a file is in both lists: `imageHasId` accepts it
   * but the `!i.id` filter treats it as missing. A browser post does not
   * deliver this input: the form library turns an empty field into a missing
   * one before the schema sees it. A request built by hand can.
   */
  lemma EmptyIdWithFileInBoth(f: ImageFieldset)
    requires f.id == Some("") && ImageHasFile(f)
    ensures |ImageUpdates([f])| == 1 && |NewImages([f])| == 1
  {
    Classify(f);
  }

  /** A non-empty id makes the fieldset an update only, never a new image. */
  lemma TruthyIdIsUpdateOnly(f: ImageFieldset)
    requires TruthyOpt(f.id)
    ensures ImageUpdates([f]) == [ToUpdate(f)] && NewImages([f]) == []
  {
    Classify(f);
  }

  /**
   * Resubmitting the editor's default image fieldsets unchanged plans one
   * update per stored image, in the stored order, none of them carrying a
   * blob, and no new image.
   */
  lemma {:induction false} DefaultsPlanNoChange(fs: seq<ImageFieldset>, stored: seq<StoredImage>)
    requires |fs| == |stored|
    requires forall i :: 0 <= i < |fs| ==> fs[i] == ImageFieldset(Some(stored[i].id), None, stored[i].altText)
    ensures |ImageUpdates(fs)| == |stored| && NewImages(fs) == []
    ensures forall i :: 0 <= i < |stored| ==> ImageUpdates(fs)[i] == ImageUpdate(stored[i].id, stored[i].altText, None)
  {
    if fs != [] {
      DefaultsPlanNoChange(fs[1..], stored[1..]);
      assert ImageUpdates(fs) == [ToUpdate(fs[0])] + ImageUpdates(fs[1..]);
    }
  }

  /** With no user, the single empty default fieldset plans nothing. */
  lemma NewSupplierDefaultsPlanNothing()
    ensures ImageUpdates(DefaultFieldsets(DefaultValue(None))) == []
    ensures NewImages(DefaultFieldsets(DefaultValue(None))) == []
  {
    var fs := DefaultFieldsets(DefaultValue(None));
    assert fs == [ImageFieldset(None, None, None)];
    NeitherIdNorFile(fs[0]);
  }

  /** For a stored supplier, the default fieldsets plan an unchanged update of every stored image. */
  lemma StoredSupplierDefaultsKeepImages(u: EditedSupplier)
    ensures NewImages(DefaultFieldsets(DefaultValue(Some(u)))) == []
    ensures UpdateIdList(ImageUpdates(DefaultFieldsets(DefaultValue(Some(u))))) ==
            seq(|u.productImages|, i requires 0 <= i < |u.productImages| => u.productImages[i].id)
  {
    var fs := DefaultFieldsets(DefaultValue(Some(u)));
    DefaultsPlanNoChange(fs, u.productImages);
  }
}
