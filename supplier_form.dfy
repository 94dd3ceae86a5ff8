/**
 * The supplier editor form (admin area): its upload cap, the image fieldset
 * schema, the editor schema and the default values the form is filled with.
 * The field validators for username, name, email, number, website and about
 * live in a module that is not part of this model; each is taken as an opaque
 * parser of a present string that either accepts it, giving the parsed value
 * (which may be normalised), or refuses it.
 */
module SupplierForm {
  import opened Common

  /** Largest accepted image upload, in bytes (6 MiB). */
  const MAX_UPLOAD_SIZE: nat := 1024 * 1024 * 6

  /** Largest number of image fieldsets a submission may carry. */
  const MAX_PRODUCT_IMAGES: nat := 5

  /** An uploaded file: its declared MIME type and its bytes. */
  datatype Upload = Upload(contentType: string, bytes: seq<bv8>) {
    /** `File.size`: the number of bytes. */
    function Size(): nat { |bytes| }
  }

  /** One image entry of the form. */
  datatype ImageFieldset = ImageFieldset(id: Option<string>, file: Option<Upload>, altText: Option<string>)

  /** The file refinement of an image fieldset: no file, or one within the cap. */
  predicate ImageFileAccepted(f: ImageFieldset) {
    f.file.None? || f.file.value.Size() <= MAX_UPLOAD_SIZE
  }

  /**
   * The imported field validators: `Some` of the parsed value when a present
   * string is accepted, `None` when it is refused. A refusal is one of the
   * schema's ordinary checks (length, pattern, format): it adds an issue but
   * does not abort the parse.
   */
  datatype FieldValidators = FieldValidators(
    username: string -> Option<string>,
    name: string -> Option<string>,
    email: string -> Option<string>,
    number: string -> Option<string>,
    website: string -> Option<string>,
    about: string -> Option<string>)

  /** The editor form as submitted: every key may be missing. */
  datatype RawEditorForm = RawEditorForm(
    id: Option<string>,
    username: Option<string>,
    name: Option<string>,
    email: Option<string>,
    number: Option<string>,
    website: Option<string>,
    categoryId: Option<string>,
    locationId: Option<string>,
    about: Option<string>,
    productImages: Option<seq<ImageFieldset>>)

  /** The editor form once the schema accepted it. */
  datatype EditorData = EditorData(
    id: Option<string>,
    username: string,
    name: string,
    email: string,
    number: Option<string>,
    website: Option<string>,
    categoryId: string,
    locationId: string,
    about: string,
    productImages: Option<seq<ImageFieldset>>)

  /** A required key: present and accepted by its validator. */
  predicate RequiredOk(value: Option<string>, valid: string -> Option<string>) {
    value.Some? && valid(value.value).Some?
  }

  /** An optional key: absent, or present and accepted by its validator. */
  predicate OptionalOk(value: Option<string>, valid: string -> Option<string>) {
    value.None? || valid(value.value).Some?
  }

  /**
   * The value a present string has after its validator: the parsed one when
   * accepted; when refused, the parse carries on with the string as submitted.
   */
  function Parsed(value: string, valid: string -> Option<string>): string {
    if valid(value).Some? then valid(value).value else value
  }

  /** An optional key after its validator: absent stays absent. */
  function ParsedOpt(value: Option<string>, valid: string -> Option<string>): Option<string> {
    if value.Some? then Some(Parsed(value.value, valid)) else None
  }

  /** The image list: absent, or at most five entries each with an accepted file. */
  predicate ImagesOk(images: Option<seq<ImageFieldset>>) {
    images.None? ||
    (|images.value| <= MAX_PRODUCT_IMAGES &&
     forall i :: 0 <= i < |images.value| ==> ImageFileAccepted(images.value[i]))
  }

  /** The whole editor schema, field by field. */
  predicate EditorAccepts(raw: RawEditorForm, v: FieldValidators) {
    && RequiredOk(raw.username, v.username)
    && RequiredOk(raw.name, v.name)
    && RequiredOk(raw.email, v.email)
    && OptionalOk(raw.number, v.number)
    && OptionalOk(raw.website, v.website)
    && raw.categoryId.Some?
    && raw.locationId.Some?
    && RequiredOk(raw.about, v.about)
    && ImagesOk(raw.productImages)
  }

  function RequiredIssue(value: Option<string>, valid: string -> Option<string>, field: Field): set<Field> {
    if RequiredOk(value, valid) then {} else {field}
  }

  function OptionalIssue(value: Option<string>, valid: string -> Option<string>, field: Field): set<Field> {
    if OptionalOk(value, valid) then {} else {field}
  }

  function PresenceIssue(value: Option<string>, field: Field): set<Field> {
    if value.Some? then {} else {field}
  }

  /** The issues of the image list: its length and each oversized file. */
  function ImageIssues(images: Option<seq<ImageFieldset>>): set<Field> {
    match images
    case None => {}
    case Some(fs) =>
      (if |fs| > MAX_PRODUCT_IMAGES then {ProductImages} else {}) +
      (set i | 0 <= i < |fs| && !ImageFileAccepted(fs[i]) :: ProductImageFile(i))
  }

  /**
   * The editor parse aborts, before any refinement runs, exactly when a
   * required key is missing; every other failure only marks the value as
   * having issues.
   */
  predicate EditorAborts(raw: RawEditorForm) {
    || raw.username.None? || raw.name.None? || raw.email.None?
    || raw.categoryId.None? || raw.locationId.None? || raw.about.None?
  }

  /** Every issue the editor schema reports for a submission. */
  function EditorIssues(raw: RawEditorForm, v: FieldValidators): set<Field> {
    RequiredIssue(raw.username, v.username, Username) +
    RequiredIssue(raw.name, v.name, Name) +
    RequiredIssue(raw.email, v.email, Email) +
    OptionalIssue(raw.number, v.number, Number) +
    OptionalIssue(raw.website, v.website, Website) +
    PresenceIssue(raw.categoryId, CategoryId) +
    PresenceIssue(raw.locationId, LocationId) +
    RequiredIssue(raw.about, v.about, About) +
    ImageIssues(raw.productImages)
  }

  /**
   * Schema parse of the editor form: the data when every field passes, the
   * set of failing fields otherwise. The accepted data holds what each
   * validator parsed, and every other value as the submitter sent it.
   */
  function ParseEditor(raw: RawEditorForm, v: FieldValidators): (r: Result<EditorData, set<Field>>)
    ensures r.Ok? <==> EditorAccepts(raw, v)
    ensures r.Err? ==> r.error != {}
    ensures r.Ok? ==>
      && r.value.id == raw.id
      && r.value.username == v.username(raw.username.value).value
      && r.value.name == v.name(raw.name.value).value
      && r.value.email == v.email(raw.email.value).value
      && (r.value.number.Some? <==> raw.number.Some?)
      && (raw.number.Some? ==> r.value.number.value == v.number(raw.number.value).value)
      && (r.value.website.Some? <==> raw.website.Some?)
      && (raw.website.Some? ==> r.value.website.value == v.website(raw.website.value).value)
      && Some(r.value.categoryId) == raw.categoryId && Some(r.value.locationId) == raw.locationId
      && r.value.about == v.about(raw.about.value).value
      && r.value.productImages == raw.productImages
  {
    var issues := EditorIssues(raw, v);
    if issues == {} then
      IssuesEmptyIffAccepted(raw, v);
      Ok(EditorData(raw.id, Parsed(raw.username.value, v.username), Parsed(raw.name.value, v.name),
                    Parsed(raw.email.value, v.email), ParsedOpt(raw.number, v.number),
                    ParsedOpt(raw.website, v.website), raw.categoryId.value, raw.locationId.value,
                    Parsed(raw.about.value, v.about), raw.productImages))
    else
      IssuesEmptyIffAccepted(raw, v);
      Err(issues)
  }

  /** The issue set is empty exactly when the schema accepts the form. */
  lemma IssuesEmptyIffAccepted(raw: RawEditorForm, v: FieldValidators)
    ensures EditorIssues(raw, v) == {} <==> EditorAccepts(raw, v)
  {
    if raw.productImages.Some? {
      var fs := raw.productImages.value;
      if exists i :: 0 <= i < |fs| && !ImageFileAccepted(fs[i]) {
        var i :| 0 <= i < |fs| && !ImageFileAccepted(fs[i]);
        assert ProductImageFile(i) in ImageIssues(raw.productImages);
      }
    }
  }

  /** A file of exactly the cap is accepted; one byte more is refused. */
  lemma UploadCapBoundary(contentType: string, bytes: seq<bv8>, id: Option<string>, altText: Option<string>)
    ensures |bytes| == MAX_UPLOAD_SIZE ==> ImageFileAccepted(ImageFieldset(id, Some(Upload(contentType, bytes)), altText))
    ensures |bytes| == MAX_UPLOAD_SIZE + 1 ==> !ImageFileAccepted(ImageFieldset(id, Some(Upload(contentType, bytes)), altText))
    ensures ImageFileAccepted(ImageFieldset(id, None, altText))
    ensures MAX_UPLOAD_SIZE == 6_291_456
  {
  }

  /** A sixth image fieldset is refused, whatever the images hold. */
  lemma AtMostFiveImages(raw: RawEditorForm, v: FieldValidators)
    requires raw.productImages.Some? && |raw.productImages.value| > 5
    ensures ProductImages in EditorIssues(raw, v)
    ensures ParseEditor(raw, v).Err?
  {
  }

  /**
   * Only the required fields are needed: a form without id, number, website
   * and image list is accepted once username, name, email, about pass their
   * validators and a category and location are chosen.
   */
  lemma OptionalFieldsMayBeAbsent(username: string, name: string, email: string, categoryId: string,
                                  locationId: string, about: string, v: FieldValidators)
    requires v.username(username).Some? && v.name(name).Some? && v.email(email).Some? && v.about(about).Some?
    ensures ParseEditor(RawEditorForm(None, Some(username), Some(name), Some(email), None, None,
                                      Some(categoryId), Some(locationId), Some(about), None), v).Ok?
  {
  }

  /** Without a category or location the form is refused, naming that field, and the parse aborts. */
  lemma CategoryAndLocationRequired(raw: RawEditorForm, v: FieldValidators)
    ensures raw.categoryId.None? ==> CategoryId in EditorIssues(raw, v) && ParseEditor(raw, v).Err? && EditorAborts(raw)
    ensures raw.locationId.None? ==> LocationId in EditorIssues(raw, v) && ParseEditor(raw, v).Err? && EditorAborts(raw)
  {
  }

  /**
   * A parse that aborts always has issues; one that does not abort fails only
   * on validator refusals, too many images or oversized files.
   */
  lemma AbortsOnlyOnMissingKeys(raw: RawEditorForm, v: FieldValidators)
    ensures EditorAborts(raw) ==> EditorIssues(raw, v) != {}
    ensures !EditorAborts(raw) ==> forall f :: f in EditorIssues(raw, v) ==>
      f in {Username, Name, Email, Number, Website, About, ProductImages} || f.ProductImageFile?
  {
  }

  // ---------------------------------------------------------------------
  // The default value the editor form starts from.

  /** A category or location as listed with the user. */
  datatype NamedRef = NamedRef(id: string, name: string)

  /** A stored product image as the edit loader selects it. */
  datatype StoredImage = StoredImage(id: string, altText: Option<string>)

  /** The supplier being edited, as the edit loader selects it. */
  datatype EditedSupplier = EditedSupplier(
    id: string, username: string, name: string, email: string,
    number: Option<string>, website: Option<string>, about: Option<string>,
    location: seq<NamedRef>, category: seq<NamedRef>, productImages: seq<StoredImage>)

  /** The initial value of one image fieldset (no file is ever prefilled). */
  datatype ImageDefault = ImageDefault(id: Option<string>, altText: Option<string>)

  /** The initial values of the editor form. */
  datatype EditorDefaults = EditorDefaults(
    id: Option<string>, username: Option<string>, name: Option<string>, email: Option<string>,
    number: Option<string>, website: Option<string>, about: Option<string>,
    locationId: Option<string>, categoryId: Option<string>,
    productImages: seq<ImageDefault>)

  function FirstId(refs: seq<NamedRef>): Option<string> {
    if |refs| > 0 then Some(refs[0].id) else None
  }

  /**
   * The form's default value: the user's own fields, the first listed
   * location and category, and the user's images; with no user, every field
   * is empty and there is a single empty image fieldset.
   */
  function DefaultValue(user: Option<EditedSupplier>): (d: EditorDefaults)
    ensures user.None? ==>
      d == EditorDefaults(None, None, None, None, None, None, None, None, None, [ImageDefault(None, None)])
    ensures user.Some? ==>
      && d.id == Some(user.value.id) && d.username == Some(user.value.username)
      && d.name == Some(user.value.name) && d.email == Some(user.value.email)
      && d.number == user.value.number && d.website == user.value.website
      && d.about == user.value.about
      && (d.locationId.Some? <==> |user.value.location| > 0)
      && (d.locationId.Some? ==> d.locationId.value == user.value.location[0].id)
      && (d.categoryId.Some? <==> |user.value.category| > 0)
      && (d.categoryId.Some? ==> d.categoryId.value == user.value.category[0].id)
      && |d.productImages| == |user.value.productImages|
      && forall i :: 0 <= i < |d.productImages| ==>
           d.productImages[i] == ImageDefault(Some(user.value.productImages[i].id), user.value.productImages[i].altText)
  {
    match user
    case None =>
      EditorDefaults(None, None, None, None, None, None, None, None, None, [ImageDefault(None, None)])
    case Some(u) =>
      EditorDefaults(Some(u.id), Some(u.username), Some(u.name), Some(u.email), u.number, u.website, u.about,
                     FirstId(u.location), FirstId(u.category),
                     seq(|u.productImages|, i requires 0 <= i < |u.productImages| =>
                       ImageDefault(Some(u.productImages[i].id), u.productImages[i].altText)))
  }

  /** The image fieldsets the default value puts in the form (no file attached). */
  function DefaultFieldsets(d: EditorDefaults): (fs: seq<ImageFieldset>)
    ensures |fs| == |d.productImages|
    ensures forall i :: 0 <= i < |fs| ==>
      fs[i].file.None? && fs[i].id == d.productImages[i].id && fs[i].altText == d.productImages[i].altText
  {
    seq(|d.productImages|, i requires 0 <= i < |d.productImages| =>
      ImageFieldset(d.productImages[i].id, None, d.productImages[i].altText))
  }
}
