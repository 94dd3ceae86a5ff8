/**
 * The two admin actions that write suppliers: the new-supplier form's action
 * (create one user) and the supplier editor's action (create or update one
 * user and reconcile its product images). Both refuse non-admins before
 * anything is read, validate the form, run the duplicate-identity check, and
 * answer an unsuccessful submission without writing anything.
 */
module SupplierActions {
  import opened Common
  import opened SupplierForm
  import opened IdentityConflict
  import opened ImagePlan
  import opened ImageStore

  /** The id the editor upserts by when the form carries no id; no user has it. */
  const NEW_SUPPLIER_SENTINEL: string := "__new_supplier"

  /** The name of the role every supplier is connected to at creation. */
  const SUPPLIER_ROLE: string := "supplier"

  /**
   * The issues of a refused form: the fields the schema refused, and the
   * field the duplicate-identity check flagged, if it ran and found one.
   */
  datatype FormIssues = FormIssues(invalid: set<Field>, taken: Option<Field>)

  const NO_ISSUES: FormIssues := FormIssues({}, None)

  /**
   * A form submission as the form library reports it: `'success'` with the
   * parsed value, `'error'` with the issues, or no status at all (the request
   * carried an intent other than submitting, such as validating one field).
   */
  datatype Submission<T> = Success(value: T) | Error(issues: FormIssues) | NoStatus(issues: FormIssues)

  /** The submission for a request, from its intent and the validation outcome. */
  function Submit<T>(submitIntent: bool, validated: Result<T, FormIssues>): (s: Submission<T>)
    ensures s.Success? <==> submitIntent && validated.Ok?
    ensures s.Success? ==> s.value == validated.value
    ensures s.Error? <==> submitIntent && validated.Err?
    ensures s.Error? ==> s.issues == validated.error
  {
    if !submitIntent then NoStatus(if validated.Err? then validated.error else NO_ISSUES)
    else if validated.Ok? then Success(validated.value)
    else Error(validated.error)
  }

  /** The HTTP status of the reply to an unsuccessful submission: 400 for `'error'`, 200 otherwise. */
  function ReplyStatus<T>(s: Submission<T>): (code: int)
    requires !s.Success?
    ensures code == 400 <==> s.Error?
    ensures code == 200 <==> s.NoStatus?
  {
    if s.Error? then 400 else 200
  }

  /** What an action or loader answers. */
  datatype Response =
    | AdminRequired                                        // the admin gate refused the request
    | Reply(status: int, issues: FormIssues)               // the form is sent back with its issues
    | RedirectWithToast(location: string, title: string, description: string)
    | CategoryList(categories: seq<NamedRef>)

  /** The answer after a supplier has been written. */
  function SupplierSaved(username: string): (r: Response)
    ensures r.RedirectWithToast? && r.location == "/admin/suppliers/" + username + "/photo"
    ensures r.title == "Supplier created"
    ensures r.description == "Thanks for adding " + username + " as a supplier!"
  {
    RedirectWithToast("/admin/suppliers/" + username + "/photo", "Supplier created",
                      "Thanks for adding " + username + " as a supplier!")
  }

  /** The identity fields both forms submit. */
  datatype Profile = Profile(username: string, name: string, email: string,
                             number: Option<string>, website: Option<string>, about: string)

  // ---------------------------------------------------------------------
  // The new-supplier form.

  /** The new-supplier form as submitted. */
  datatype RawNewSupplierForm = RawNewSupplierForm(
    username: Option<string>, name: Option<string>, email: Option<string>,
    number: Option<string>, website: Option<string>, categoryId: Option<string>,
    about: Option<string>)

  /** The new-supplier form once accepted. */
  datatype NewSupplierValue = NewSupplierValue(profile: Profile, categoryId: string)

  /** The new-supplier schema, field by field: number and website are optional. */
  predicate NewSupplierAccepts(raw: RawNewSupplierForm, v: FieldValidators) {
    && RequiredOk(raw.username, v.username)
    && RequiredOk(raw.name, v.name)
    && RequiredOk(raw.email, v.email)
    && OptionalOk(raw.number, v.number)
    && OptionalOk(raw.website, v.website)
    && raw.categoryId.Some?
    && RequiredOk(raw.about, v.about)
  }

  function NewSupplierIssues(raw: RawNewSupplierForm, v: FieldValidators): set<Field> {
    RequiredIssue(raw.username, v.username, Username) +
    RequiredIssue(raw.name, v.name, Name) +
    RequiredIssue(raw.email, v.email, Email) +
    OptionalIssue(raw.number, v.number, Number) +
    OptionalIssue(raw.website, v.website, Website) +
    PresenceIssue(raw.categoryId, CategoryId) +
    RequiredIssue(raw.about, v.about, About)
  }

  /** The new-supplier parse aborts, before the refinement runs, exactly when a required key is missing. */
  predicate NewSupplierAborts(raw: RawNewSupplierForm) {
    || raw.username.None? || raw.name.None? || raw.email.None? || raw.categoryId.None? || raw.about.None?
  }

  /** Schema parse of the new-supplier form: each field as its validator parsed it. */
  function ParseNewSupplier(raw: RawNewSupplierForm, v: FieldValidators): (r: Result<NewSupplierValue, set<Field>>)
    ensures r.Ok? <==> NewSupplierAccepts(raw, v)
    ensures r.Err? ==> r.error != {}
    ensures r.Ok? ==>
      && r.value.profile.username == v.username(raw.username.value).value
      && r.value.profile.name == v.name(raw.name.value).value
      && r.value.profile.email == v.email(raw.email.value).value
      && (r.value.profile.number.Some? <==> raw.number.Some?)
      && (raw.number.Some? ==> r.value.profile.number.value == v.number(raw.number.value).value)
      && (r.value.profile.website.Some? <==> raw.website.Some?)
      && (raw.website.Some? ==> r.value.profile.website.value == v.website(raw.website.value).value)
      && r.value.profile.about == v.about(raw.about.value).value
      && Some(r.value.categoryId) == raw.categoryId
  {
    var issues := NewSupplierIssues(raw, v);
    if issues == {} then
      Ok(NewSupplierValue(Profile(Parsed(raw.username.value, v.username), Parsed(raw.name.value, v.name),
                                  Parsed(raw.email.value, v.email), ParsedOpt(raw.number, v.number),
                                  ParsedOpt(raw.website, v.website), Parsed(raw.about.value, v.about)),
                          raw.categoryId.value))
    else
      Err(issues)
  }

  /** The identity fields the refinement of the new-supplier form reads. */
  function NewSupplierClaim(raw: RawNewSupplierForm, v: FieldValidators): Claim
    requires !NewSupplierAborts(raw)
  {
    Claim(Parsed(raw.username.value, v.username), Parsed(raw.email.value, v.email), ParsedOpt(raw.number, v.number))
  }

  /**
   * The action's parse: the schema, refined by the duplicate-identity check
   * against the store's users. A parse that aborts reports only its schema
   * issues; otherwise the check runs on the parsed fields even when some of
   * them were refused, and its issue is added to the schema's. The value is
   * accepted exactly when the schema accepts and nothing is flagged.
   */
  function ValidateNewSupplier(raw: RawNewSupplierForm, v: FieldValidators,
                               users: seq<StoredIdentity>): (r: Result<NewSupplierValue, FormIssues>)
    ensures NewSupplierAborts(raw) ==> r == Err(FormIssues(NewSupplierIssues(raw, v), None))
    ensures !NewSupplierAborts(raw) ==>
      var c := NewSupplierClaim(raw, v);
      var taken := FirstConflict(NewSupplierCheck, NewSupplierCandidate(users, c), c);
      && (r.Ok? <==> NewSupplierAccepts(raw, v) && taken.None?)
      && (r.Ok? ==> r.value == ParseNewSupplier(raw, v).value)
      && (r.Err? ==> r.error == FormIssues(NewSupplierIssues(raw, v), taken))
  {
    if NewSupplierAborts(raw) then Err(FormIssues(NewSupplierIssues(raw, v), None))
    else
      var c := NewSupplierClaim(raw, v);
      var taken := FirstConflict(NewSupplierCheck, NewSupplierCandidate(users, c), c);
      match ParseNewSupplier(raw, v)
      case Ok(d) => if taken.None? then Ok(d) else Err(FormIssues({}, taken))
      case Err(issues) => Err(FormIssues(issues, taken))
  }

  // ---------------------------------------------------------------------
  // The supplier editor form.

  /** The editor form after the transform: images split into updates and new images. */
  datatype EditorValue = EditorValue(
    id: Option<string>, profile: Profile, categoryId: string, locationId: string,
    imageUpdates: seq<ImageUpdate>, newImages: seq<NewImage>)

  /** The transform step: a missing image list counts as empty. */
  function TransformEditor(d: EditorData): (e: EditorValue)
    ensures e.id == d.id && e.categoryId == d.categoryId && e.locationId == d.locationId
    ensures e.profile == Profile(d.username, d.name, d.email, d.number, d.website, d.about)
    ensures e.imageUpdates == ImageUpdates(d.productImages.GetOr([]))
    ensures e.newImages == NewImages(d.productImages.GetOr([]))
  {
    var images := d.productImages.GetOr([]);
    EditorValue(d.id, Profile(d.username, d.name, d.email, d.number, d.website, d.about),
                d.categoryId, d.locationId, ImageUpdates(images), NewImages(images))
  }

  /** The identity fields the refinement of the editor form reads. */
  function EditorClaim(raw: RawEditorForm, v: FieldValidators): Claim
    requires !EditorAborts(raw)
  {
    Claim(Parsed(raw.username.value, v.username), Parsed(raw.email.value, v.email), ParsedOpt(raw.number, v.number))
  }

  /**
   * The editor action's parse: the schema, refined by the editor's
   * duplicate-identity check against the store's users, then the transform.
   * A parse that aborts reports only its schema issues; otherwise the check
   * runs even when some fields were refused, and its issue is added to the
   * schema's. The value is transformed exactly when the schema accepts and
   * nothing is flagged.
   */
  function ValidateEditor(raw: RawEditorForm, v: FieldValidators,
                          users: seq<StoredIdentity>): (r: Result<EditorValue, FormIssues>)
    ensures EditorAborts(raw) ==> r == Err(FormIssues(EditorIssues(raw, v), None))
    ensures !EditorAborts(raw) ==>
      var c := EditorClaim(raw, v);
      var taken := FirstConflict(EditorCheck, EditorCandidate(users, raw.id, c), c);
      && (r.Ok? <==> EditorAccepts(raw, v) && taken.None?)
      && (r.Ok? ==> r.value == TransformEditor(ParseEditor(raw, v).value))
      && (r.Err? ==> r.error == FormIssues(EditorIssues(raw, v), taken))
  {
    if EditorAborts(raw) then
      Err(FormIssues(EditorIssues(raw, v), None))
    else
      var c := EditorClaim(raw, v);
      var taken := FirstConflict(EditorCheck, EditorCandidate(users, raw.id, c), c);
      match ParseEditor(raw, v)
      case Ok(d) => if taken.None? then Ok(TransformEditor(d)) else Err(FormIssues({}, taken))
      case Err(issues) => Err(FormIssues(issues, taken))
  }

  /** A refused form always carries at least one issue. */
  predicate HasIssues(i: FormIssues) {
    i.invalid != {} || i.taken.Some?
  }

  /**
   * End to end, with non-empty identity fields: the editor accepts a
   * submission exactly when the schema does and no user other than the one
   * being edited shares its username, email or number; a refusal always
   * carries issues.
   */
  lemma EditorAcceptsIff(raw: RawEditorForm, v: FieldValidators, users: seq<StoredIdentity>)
    requires !EditorAborts(raw)
    requires var c := EditorClaim(raw, v); Truthy(c.username) && Truthy(c.email) && NumberAbsentOrTruthy(c)
    ensures var c := EditorClaim(raw, v);
      ValidateEditor(raw, v, users).Ok? <==>
        EditorAccepts(raw, v) && !exists j :: 0 <= j < |users| && Eligible(users[j], CurrentUserId(users, raw.id), c)
    ensures ValidateEditor(raw, v, users).Err? ==> HasIssues(ValidateEditor(raw, v, users).error)
  {
    EditorFlagsOtherUsers(users, raw.id, EditorClaim(raw, v));
    IssuesEmptyIffAccepted(raw, v);
  }

  /**
   * A form refused by a validator is still checked for duplicates: when the
   * username is both refused and taken, both issues are reported.
   */
  lemma RefusedFieldsAreStillChecked(raw: RawEditorForm, v: FieldValidators, users: seq<StoredIdentity>)
    requires !EditorAborts(raw) && v.username(raw.username.value).None?
    requires var cand := EditorCandidate(users, raw.id, EditorClaim(raw, v));
      cand.Some? && UsernameClash(EditorCheck, cand.value, EditorClaim(raw, v))
    ensures ValidateEditor(raw, v, users) == Err(FormIssues(EditorIssues(raw, v), Some(Username)))
    ensures Username in EditorIssues(raw, v)
  {
  }

  /**
   * End to end: the new-supplier form is accepted exactly when the schema
   * accepts it and no stored user shares its username, email or number.
   */
  lemma NewSupplierAcceptsIff(raw: RawNewSupplierForm, v: FieldValidators, users: seq<StoredIdentity>)
    requires !NewSupplierAborts(raw) && NumberAbsentOrTruthy(NewSupplierClaim(raw, v))
    ensures ValidateNewSupplier(raw, v, users).Ok? <==>
      NewSupplierAccepts(raw, v) && !exists j :: 0 <= j < |users| && SharesIdentity(users[j], NewSupplierClaim(raw, v))
  {
    NewSupplierFlagsAnyMatch(users, NewSupplierClaim(raw, v));
  }

  /**
   * A new-supplier submission that a stored user clashes with is never a
   * success, so the action answers it without writing.
   */
  lemma ClashingSubmissionIsRefused(submitIntent: bool, raw: RawNewSupplierForm, v: FieldValidators,
                                    users: seq<StoredIdentity>, j: nat)
    requires !NewSupplierAborts(raw) && NumberAbsentOrTruthy(NewSupplierClaim(raw, v))
    requires j < |users| && SharesIdentity(users[j], NewSupplierClaim(raw, v))
    ensures !Submit(submitIntent, ValidateNewSupplier(raw, v, users)).Success?
    ensures submitIntent ==> ReplyStatus(Submit(submitIntent, ValidateNewSupplier(raw, v, users))) == 400
  {
    NewSupplierAcceptsIff(raw, v, users);
  }

  // ---------------------------------------------------------------------
  // The store.

  /** A stored supplier: its fields, its connected locations, categories and roles, and its images. */
  datatype SupplierRow = SupplierRow(
    username: string, name: string, email: string,
    number: Option<string>, website: Option<string>, about: Option<string>,
    locations: set<string>, categories: set<string>, roles: set<string>,
    images: ImageRows)

  /** The roles to connect: the supplier role when the store has one. */
  function RoleSet(roleId: Option<string>): set<string> {
    if roleId.Some? then {roleId.value} else {}
  }

  /** The row the new-supplier action creates. */
  function NewSupplierRow(v: NewSupplierValue, roleId: Option<string>): (row: SupplierRow)
    ensures row.username == v.profile.username && row.name == v.profile.name && row.email == v.profile.email
    ensures row.number == v.profile.number && row.website == v.profile.website && row.about == Some(v.profile.about)
    ensures row.categories == {v.categoryId} && row.locations == {} && row.images == map[]
    ensures roleId.Some? ==> row.roles == {roleId.value}
    ensures roleId.None? ==> row.roles == {}
  {
    SupplierRow(v.profile.username, v.profile.name, v.profile.email, v.profile.number, v.profile.website,
                Some(v.profile.about), {}, {v.categoryId}, RoleSet(roleId), map[])
  }

  /** Ids drawn from the id generator for one editor save. */
  datatype DrawnIds = DrawnIds(forUser: string, forUpdates: seq<string>, forNewImages: seq<string>)

  predicate IdsFit(e: EditorValue, ids: DrawnIds) {
    |ids.forUpdates| == |e.imageUpdates| && |ids.forNewImages| == |e.newImages|
  }

  /** The key the editor upserts by. */
  function UpsertKey(e: EditorValue): string {
    e.id.GetOr(NEW_SUPPLIER_SENTINEL)
  }

  /** The create branch of the editor's upsert: the supplier role is connected, the new images created. */
  function EditorCreatedRow(e: EditorValue, roleId: Option<string>, ids: DrawnIds): SupplierRow
    requires IdsFit(e, ids)
  {
    SupplierRow(e.profile.username, e.profile.name, e.profile.email, e.profile.number, e.profile.website,
                Some(e.profile.about), {e.locationId}, {e.categoryId}, RoleSet(roleId),
                CreateAll(map[], e.newImages, ids.forNewImages))
  }

  /**
   * The update branch: the fields are overwritten (an absent number or
   * website is left as stored), the location and category are connected
   * beside the ones already there, the roles are untouched and the images
   * reconciled.
   */
  function EditorUpdatedRow(row: SupplierRow, e: EditorValue, ids: DrawnIds): SupplierRow
    requires IdsFit(e, ids)
  {
    SupplierRow(e.profile.username, e.profile.name, e.profile.email,
                if e.profile.number.Some? then e.profile.number else row.number,
                if e.profile.website.Some? then e.profile.website else row.website,
                Some(e.profile.about), row.locations + {e.locationId}, row.categories + {e.categoryId}, row.roles,
                Reconciled(row.images, e.imageUpdates, e.newImages, ids.forUpdates, ids.forNewImages))
  }

  /** The users after the editor's upsert. */
  function Upserted(users: map<string, SupplierRow>, e: EditorValue, roleId: Option<string>, ids: DrawnIds)
    : map<string, SupplierRow>
    requires IdsFit(e, ids)
  {
    var key := UpsertKey(e);
    if key in users then users[key := EditorUpdatedRow(users[key], e, ids)]
    else users[ids.forUser := EditorCreatedRow(e, roleId, ids)]
  }

  /**
   * A submission without an id creates a new supplier under a fresh id,
   * connected to the supplier role, with exactly the new images; every other
   * user is left as it was.
   */
  lemma MissingIdCreates(users: map<string, SupplierRow>, e: EditorValue, roleId: Option<string>, ids: DrawnIds)
    requires IdsFit(e, ids) && e.id.None? && NEW_SUPPLIER_SENTINEL !in users
    requires ids.forUser !in users && Distinct(ids.forNewImages)
    ensures var r := Upserted(users, e, roleId, ids);
      && r.Keys == users.Keys + {ids.forUser}
      && (forall k :: k in users ==> r[k] == users[k])
      && r[ids.forUser].roles == RoleSet(roleId)
      && r[ids.forUser].images.Keys == Elements(ids.forNewImages)
      && forall j :: 0 <= j < |e.newImages| ==> r[ids.forUser].images[ids.forNewImages[j]] == NewRow(e.newImages[j])
  {
    CreateAllAt(map[], e.newImages, ids.forNewImages);
    CreateAllFrame(map[], e.newImages, ids.forNewImages);
  }

  /** Only the create branch connects a role: an update keeps the stored roles. */
  lemma UpdateKeepsRoles(users: map<string, SupplierRow>, e: EditorValue, roleId: Option<string>, ids: DrawnIds)
    requires IdsFit(e, ids) && UpsertKey(e) in users
    ensures var r := Upserted(users, e, roleId, ids);
      && r.Keys == users.Keys
      && r[UpsertKey(e)].roles == users[UpsertKey(e)].roles
      && (forall k :: k in users && k != UpsertKey(e) ==> r[k] == users[k])
  {
  }

  /**
   * On update, the stored images the updates do not name are deleted, every
   * new image is created, and a named image moves to a fresh id exactly when
   * its update carries a blob.
   */
  lemma UpdateReconcilesImages(users: map<string, SupplierRow>, e: EditorValue, roleId: Option<string>,
                               ids: DrawnIds, i: nat)
    requires IdsFit(e, ids) && UpsertKey(e) in users && i < |e.imageUpdates|
    requires FreshFor(users[UpsertKey(e)].images, e.imageUpdates, ids.forUpdates, ids.forNewImages)
    requires Distinct(UpdateIdList(e.imageUpdates))
    ensures var before := users[UpsertKey(e)].images;
      var after := Upserted(users, e, roleId, ids)[UpsertKey(e)].images;
      var u := e.imageUpdates[i];
      && (forall k :: k in before && k !in UpdateIds(e.imageUpdates) ==> k !in after)
      && (forall j :: 0 <= j < |e.newImages| ==>
            ids.forNewImages[j] in after && after[ids.forNewImages[j]] == NewRow(e.newImages[j]))
      && (u.id in before && u.blob.Some? ==> u.id !in after && ids.forUpdates[i] in after)
      && (u.id in before && u.blob.None? ==> u.id in after && after[u.id] == UpdatedRow(before[u.id], u))
  {
    var before := users[UpsertKey(e)].images;
    ReconcileDeletesUnnamed(before, e.imageUpdates, e.newImages, ids.forUpdates, ids.forNewImages);
    ReconcileCreatesAll(before, e.imageUpdates, e.newImages, ids.forUpdates, ids.forNewImages);
    ReconcileUpdates(before, e.imageUpdates, e.newImages, ids.forUpdates, ids.forNewImages, i);
  }

  /** An update without number or website leaves the stored ones; the form cannot clear them. */
  lemma UpdateKeepsAbsentOptionals(users: map<string, SupplierRow>, e: EditorValue, roleId: Option<string>, ids: DrawnIds)
    requires IdsFit(e, ids) && UpsertKey(e) in users
    requires e.profile.number.None? && e.profile.website.None?
    ensures Upserted(users, e, roleId, ids)[UpsertKey(e)].number == users[UpsertKey(e)].number
    ensures Upserted(users, e, roleId, ids)[UpsertKey(e)].website == users[UpsertKey(e)].website
  {
  }

  /** The supplier directory the two actions read and write. */
  class SupplierDirectory {
    var users: map<string, SupplierRow>
    var roleIds: map<string, string>      // role name -> role id
    var categories: seq<NamedRef>

    constructor (users: map<string, SupplierRow>, roleIds: map<string, string>, categories: seq<NamedRef>)
      ensures this.users == users && this.roleIds == roleIds && this.categories == categories
    {
      this.users := users;
      this.roleIds := roleIds;
      this.categories := categories;
    }

    /** `role.findUnique({ where: { name: 'supplier' } })`. */
    function SupplierRoleId(): (r: Option<string>)
      reads this
      ensures r.Some? <==> SUPPLIER_ROLE in roleIds
      ensures r.Some? ==> r.value == roleIds[SUPPLIER_ROLE]
    {
      if SUPPLIER_ROLE in roleIds then Some(roleIds[SUPPLIER_ROLE]) else None
    }

    /** The new-supplier loader: admins get the category list, nobody else gets anything. */
    method NewSupplierLoader(isAdmin: bool) returns (r: Response)
      ensures !isAdmin ==> r == AdminRequired
      ensures isAdmin ==> r == CategoryList(categories)
    {
      if !isAdmin {
        return AdminRequired;
      }
      r := CategoryList(categories);
    }

    /**
     * The new-supplier action. A non-admin is refused and an unsuccessful
     * submission is answered with its status; neither writes. A successful
     * one creates exactly one user with the submitted fields, connected to
     * the chosen category and the supplier role, and redirects to its photo page.
     */
    method CreateSupplier(isAdmin: bool, submission: Submission<NewSupplierValue>, newId: string)
      returns (r: Response)
      requires newId !in users
      modifies this`users
      ensures !isAdmin ==> r == AdminRequired && users == old(users)
      ensures isAdmin && !submission.Success? ==>
        r == Reply(ReplyStatus(submission), submission.issues) && users == old(users)
      ensures isAdmin && submission.Success? ==>
        && users == old(users)[newId := NewSupplierRow(submission.value, SupplierRoleId())]
        && |users| == |old(users)| + 1
        && r == SupplierSaved(submission.value.profile.username)
    {
      if !isAdmin {
        return AdminRequired;
      }
      if !submission.Success? {
        return Reply(ReplyStatus(submission), submission.issues);
      }
      var v := submission.value;
      var roleId := SupplierRoleId();
      users := users[newId := NewSupplierRow(v, roleId)];
      r := SupplierSaved(v.profile.username);
    }

    /**
     * The editor action. A non-admin is refused and an unsuccessful
     * submission is answered with its status; neither writes. A successful
     * one upserts the supplier (create when no user has the submitted id or
     * the sentinel, update otherwise) and redirects to its photo page.
     */
    method SaveSupplier(isAdmin: bool, submission: Submission<EditorValue>, ids: DrawnIds)
      returns (r: Response)
      requires submission.Success? ==> IdsFit(submission.value, ids)
      modifies this`users
      ensures !isAdmin ==> r == AdminRequired && users == old(users)
      ensures isAdmin && !submission.Success? ==>
        r == Reply(ReplyStatus(submission), submission.issues) && users == old(users)
      ensures isAdmin && submission.Success? ==>
        && users == Upserted(old(users), submission.value, SupplierRoleId(), ids)
        && r == SupplierSaved(submission.value.profile.username)
    {
      if !isAdmin {
        return AdminRequired;
      }
      if !submission.Success? {
        return Reply(ReplyStatus(submission), submission.issues);
      }
      var e := submission.value;
      var roleId := SupplierRoleId();
      var key := e.id.GetOr(NEW_SUPPLIER_SENTINEL);
      if key in users {
        var row := users[key];
        var images := ReconcileImages(row.images, e.imageUpdates, e.newImages, ids.forUpdates, ids.forNewImages);
        users := users[key := SupplierRow(
          e.profile.username, e.profile.name, e.profile.email,
          if e.profile.number.Some? then e.profile.number else row.number,
          if e.profile.website.Some? then e.profile.website else row.website,
          Some(e.profile.about), row.locations + {e.locationId}, row.categories + {e.categoryId}, row.roles, images)];
      } else {
        var images := ReconcileImages(map[], [], e.newImages, [], ids.forNewImages);
        assert images == CreateAll(map[], e.newImages, ids.forNewImages);
        users := users[ids.forUser := SupplierRow(
          e.profile.username, e.profile.name, e.profile.email, e.profile.number, e.profile.website,
          Some(e.profile.about), {e.locationId}, {e.categoryId}, RoleSet(roleId), images)];
      }
      r := SupplierSaved(e.profile.username);
    }
  }
}
