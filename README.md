# GetFranki supplier administration, payment client and search — a Dafny model

GetFranki is a marketplace that connects event organisers with event suppliers.
This project models five parts of its server side:

- **The supplier editor form.** The 6 MiB upload cap, the schema of an image fieldset and of the whole form (at most five images), and the default values the form starts from.
- **Duplicate-identity validation.** Both admin supplier actions ask the store for the first user that shares the submitted username, email or number; the editor leaves out the user it looks up by the submitted id. They compare that one candidate field by field, and report the first clash in that fixed order. The check refines the schema, so it runs whenever no required key is missing, even when some field was refused.
- **The two admin supplier actions.** The new-supplier action creates one user connected to its category and to the supplier role. The editor action upserts a user by its id, or by the sentinel `__new_supplier` when there is none. On update, it reconciles the stored product images against the submitted fieldsets:
  - stored images that no fieldset names are deleted;
  - each named image is updated, and moves to a freshly generated id when a new file comes with it;
  - each fieldset with a file and no id becomes a new image.
- **The payment-processor client.** Fetching the list of banks. Registering a bank account as a sub-account and writing the returned code onto the account row. Starting a split transaction: the amount in minor units, 91 % to the supplier and 5 % to the organiser, the remaining 4 % left to the platform.
- **The marketing page's search loader.** It redirects to `/` when both parameters are present and empty. Otherwise it builds the two LIKE patterns and splits each row's comma-joined category names into a list of trimmed names.

## Module layout

The modules follow the source files:

- `Common`: `Option`, `Result`, the form field names, and JavaScript truthiness of strings.
- `SupplierForm`: `__supplier-editor.tsx`, covering the constants, the schema and the default values.
- `IdentityConflict`: the two `superRefine` bodies and the store queries they run. They differ in two places: the editor leaves out of its conflict query the user it looks up by the submitted id, and it requires the stored username or email to be non-empty.
- `ImagePlan`: `imageHasFile`, `imageHasId`, and the transform into `imageUpdates` and `newImages`.
- `ImageStore`: the nested image write of the upsert's update branch.
  - Functions specify the delete, the in-order updates and the creates.
  - A method with loops, `ReconcileImages`, performs them step by step and is proved equal to the specification.
- `SupplierActions`: submission status, reply codes, the redirect with its toast, and the stored rows. The class `SupplierDirectory` holds the users, the role ids and the categories, and its methods are the two actions and the new-supplier loader.
- `Paystack`: the request each endpoint sends, the shared reply check, and the decimal rendering of the account number. The class `BankAccountStore` holds the bank account rows and the method that writes the sub-account code.
- `Search`: `String.prototype.split` on one character, `String.prototype.trim` with the ECMAScript white-space and line-terminator set, and the loader.

## Modelling choices

- **External calls become inputs.** Three things are taken as inputs:
  - the processor's replies to the payment client, classified as not ok, ok but failing the schema, or ok with the parsed payload;
  - the users the duplicate check's queries scan, as a sequence of their identity columns in the store's order;
  - the rows the raw search query returns, as a function of the two patterns.
- **Generated ids are parameters.** The ids `cuid()` produces are passed in. Where a property needs them to be fresh, freshness is stated as a hypothesis.
- **Absent update fields are not written.** In the ORM's update, a field that is `undefined` is left unchanged. This applies to the number, the website and an image's alt text. `connect` on a many-to-many relation adds to the existing set.
- **Issues are a set.** The schema's issues are the set of fields that have one, and the duplicate check adds at most one flagged field beside them; their order and messages are not part of the model.
- **Aborting and refining.** The schema parse aborts only when a required key is missing. A refused value, more than five images or an oversized file still lets the refinement run. A refused field reaches the refinement as submitted and an accepted one as its validator parsed it.
- **Undefined query filters.** The ORM drops a filter whose value is `undefined`. The conflict query's `OR` therefore matches on the number only when one was submitted. The editor's lookup of the current user by an absent id has no filter at all and returns the store's first user, which the conflict query then leaves out (`IdentityConflict.NoIdSkipsFirstUser`). The edit page always submits an id.
- **Sub-account registration always calls the processor.** `addSubAccount` registers the account even when it already holds a sub-account code, and overwrites that code. A lazily created code that is never re-registered is a guard of the payment route. That route is not part of this model, and the model follows the client's code.

## Model

| member | source | states |
|---|---|---|
| SupplierForm.UploadCapBoundary | app/routes/admin+/__supplier-editor.tsx:39-48 | The cap is 6 291 456 bytes. A file of exactly that size passes the refinement and one byte more fails it. A fieldset without a file always passes. |
| SupplierForm.ParseEditor | app/routes/admin+/__supplier-editor.tsx:41-65 | The schema accepts exactly the forms with valid required fields, valid-or-absent optional fields, category and location present, and at most five images each within the cap. A rejection carries at least one issue. An accepted value holds each validated field as its validator parsed it and every other field as submitted. |
| SupplierForm.ImageFileAccepted | app/routes/admin+/__supplier-editor.tsx:43-48 | The file refinement: no file, or a file of at most the cap. `UploadCapBoundary` pins down the boundary. |
| SupplierForm.EditorAccepts | app/routes/admin+/__supplier-editor.tsx:54-65 | The schema field by field: required keys present and accepted, optional ones absent or accepted, at most five images with accepted files. `IssuesEmptyIffAccepted` ties it to the issues. |
| SupplierForm.EditorIssues | app/routes/admin+/__supplier-editor.tsx:54-65 | The fields the schema reports: one per refused or missing key, the list when longer than five, and each oversized file by its index. |
| SupplierForm.Parsed | app/routes/admin+/__supplier-editor.tsx:56-63 | What the refinement sees of a validated field: the validator's output when it accepts, the submitted string when it refuses. |
| SupplierForm.EditorAborts | app/routes/admin+/__supplier-editor.tsx:54-65 | The parse aborts exactly when a required key (username, name, email, category, location, about) is missing. |
| SupplierForm.AbortsOnlyOnMissingKeys | app/routes/admin+/__supplier-editor.tsx:54-65 | An aborted parse always has issues. A parse that does not abort has issues only on validated fields, the image list or image files. |
| SupplierForm.IssuesEmptyIffAccepted | app/routes/admin+/__supplier-editor.tsx:54-65 | The issue set is empty if and only if the form is accepted. |
| SupplierForm.AtMostFiveImages | app/routes/admin+/__supplier-editor.tsx:64 | More than five image fieldsets always produce an issue on the image list and a rejection. |
| SupplierForm.OptionalFieldsMayBeAbsent | app/routes/admin+/__supplier-editor.tsx:55-64 | A form without id, number, website and images, with valid required fields, is accepted with those fields absent. |
| SupplierForm.CategoryAndLocationRequired | app/routes/admin+/__supplier-editor.tsx:61-62 | A missing category or location always produces that field's issue and a rejection, and aborts the parse. |
| SupplierForm.DefaultValue | app/routes/admin+/__supplier-editor.tsx:99-104 | With no user, every field is absent and there is one empty image fieldset. With a user, its fields are copied, the location and category are the first connected ones (if any), and the images are its stored images in order. |
| SupplierForm.DefaultFieldsets | app/routes/admin+/__supplier-editor.tsx:103 | One fieldset per default image, carrying its id and alt text and no file. |
| IdentityConflict.FirstConflict | app/routes/admin+/__supplier-editor.server.tsx:60-86 | There is an issue exactly when some field clashes. The reported field is a clashing one of least rank in the order username, email, number, and it is one of those three. |
| IdentityConflict.NumberNeedsStoredNumber | app/routes/admin+/__supplier-editor.server.tsx:79 | An absent or empty stored number never clashes. |
| IdentityConflict.AbsentNumberNeverClashes | app/routes/admin+/suppliers.new.tsx:87 | A submission without a number is never reported on the number. |
| IdentityConflict.UsernameFirst | app/routes/admin+/__supplier-editor.server.tsx:60-70 | A username clash is reported even when the email or number clashes too. |
| IdentityConflict.EmailSecond | app/routes/admin+/__supplier-editor.server.tsx:71-78 | The email is reported if and only if it clashes and the username does not. |
| IdentityConflict.NumberLast | app/routes/admin+/__supplier-editor.server.tsx:79-86 | The number is reported if and only if it clashes and neither username nor email does. |
| IdentityConflict.UsernameClash | app/routes/admin+/__supplier-editor.server.tsx:60-63 | The username comparison; the editor also needs the stored username to be non-empty. |
| IdentityConflict.EmailClash | app/routes/admin+/__supplier-editor.server.tsx:71 | The email comparison; the editor also needs the stored email to be non-empty. |
| IdentityConflict.NumberClash | app/routes/admin+/__supplier-editor.server.tsx:79 | The number comparison, on a non-empty stored number. |
| IdentityConflict.Clashes | app/routes/admin+/__supplier-editor.server.tsx:60-86 | Every field on which the candidate clashes; `FirstConflict` reports the first of them. |
| IdentityConflict.SharesIdentity | app/routes/admin+/__supplier-editor.server.tsx:51-55 | The `OR` filter of both conflict queries (also suppliers.new.tsx:62-66): the same username, the same email, or the same number when one was submitted. |
| IdentityConflict.Eligible | app/routes/admin+/__supplier-editor.server.tsx:48-56 | The editor's whole filter: not the looked-up user, when there is one, and the `OR` filter. Without a looked-up user it is the `OR` filter alone. |
| IdentityConflict.FirstEligible | app/routes/admin+/__supplier-editor.server.tsx:48-58 | `findFirst` stops at the first user the filter keeps: that user is kept by the filter, and no earlier one is. |
| IdentityConflict.Candidate | app/routes/admin+/suppliers.new.tsx:60-69 | There is no candidate exactly when the filter keeps no user. A candidate is a stored user the filter keeps. |
| IdentityConflict.CurrentUserId | app/routes/admin+/__supplier-editor.server.tsx:43-46 | Looked up by a submitted id, it is that id when a user has it, and nothing otherwise. Without an id, it is the store's first user. |
| IdentityConflict.EditorCandidate | app/routes/admin+/__supplier-editor.server.tsx:43-58 | The two editor queries together: the first user, other than the one found by the submitted id, that shares an identity field. `EditorFlagsOtherUsers` and `EditedUserIsNeverCandidate` characterise it. |
| IdentityConflict.NewSupplierCandidate | app/routes/admin+/suppliers.new.tsx:60-69 | The new-supplier query: the first stored user that shares an identity field, with nobody excluded. `NewSupplierFlagsAnyMatch` characterises it. |
| IdentityConflict.EditorFlagsOtherUsers | app/routes/admin+/__supplier-editor.server.tsx:43-86 | With non-empty identity fields, the editor flags a duplicate if and only if some user other than the current one shares the username, the email or the number. |
| IdentityConflict.ResavingOwnIdentityPasses | app/routes/admin+/__supplier-editor.server.tsx:43-58 | Re-saving an existing supplier is not flagged against its own row: with no other user sharing its identity, there is no candidate and no issue. |
| IdentityConflict.EditedUserIsNeverCandidate | app/routes/admin+/__supplier-editor.server.tsx:48-50 | When the submitted id belongs to a stored user, that user is never the candidate. |
| IdentityConflict.NoIdSkipsFirstUser | app/routes/admin+/__supplier-editor.server.tsx:43-50 | Without an id, the store's first user counts as the current one and is never the candidate. |
| IdentityConflict.NewSupplierFlagsAnyMatch | app/routes/admin+/suppliers.new.tsx:60-94 | With an absent or non-empty number, the new-supplier form flags a duplicate if and only if some stored user shares the username, the email or the number. |
| IdentityConflict.SitesDifferOnEmptyUsername | app/routes/admin+/suppliers.new.tsx:71-78 | For every candidate whose empty stored username matches, the new-supplier form flags the username and the editor never does. |
| IdentityConflict.SitesAgreeOnNonEmpty | app/routes/admin+/suppliers.new.tsx:71-94 | On a candidate with non-empty username and email, both forms report the same issue. |
| ImagePlan.ImageHasFile | app/routes/admin+/__supplier-editor.server.tsx:19-23 | `imageHasFile`: a file of positive size. `Classify` and `EmptyFileIsNoFile` state how it sorts fieldsets. |
| ImagePlan.ImageHasId | app/routes/admin+/__supplier-editor.server.tsx:25-29 | `imageHasId`: an id that is not null, even an empty one. `Classify` and `EmptyIdWithFileInBoth` state how it sorts fieldsets. |
| ImagePlan.IdIsFalsy | app/routes/admin+/__supplier-editor.server.tsx:110 | The `!i.id` filter: a missing or empty id. |
| ImagePlan.ToUpdate | app/routes/admin+/__supplier-editor.server.tsx:91-105 | An update carries the fieldset's id and alt text. It has a blob if and only if the fieldset has a non-empty file, and then the blob holds that file's type and bytes. |
| ImagePlan.ToNew | app/routes/admin+/__supplier-editor.server.tsx:111-117 | A new image carries the alt text and the file's type and bytes. |
| ImagePlan.ImageUpdates | app/routes/admin+/__supplier-editor.server.tsx:90-106 | The update list is never longer than the fieldset list. |
| ImagePlan.NewImages | app/routes/admin+/__supplier-editor.server.tsx:107-118 | The new-image list is never longer than the fieldset list. |
| ImagePlan.ImageUpdatesAppend | app/routes/admin+/__supplier-editor.server.tsx:91 | Filtering and mapping keep order: the updates of a concatenation are the concatenation of the updates. |
| ImagePlan.NewImagesAppend | app/routes/admin+/__supplier-editor.server.tsx:108-111 | The same for new images. |
| ImagePlan.Classify | app/routes/admin+/__supplier-editor.server.tsx:19-29 | A single fieldset is an update exactly when it has an id. It is a new image exactly when its file is non-empty and its id is missing or empty. |
| ImagePlan.ImageUpdatesMembers | app/routes/admin+/__supplier-editor.server.tsx:91-105 | An update is in the list if and only if some fieldset with an id yields it. |
| ImagePlan.ImageUpdatesCount | app/routes/admin+/__supplier-editor.server.tsx:91 | There is exactly one update per fieldset with an id. |
| ImagePlan.NewImagesMembers | app/routes/admin+/__supplier-editor.server.tsx:107-118 | A new image is in the list if and only if some fieldset with a non-empty file and a missing or empty id yields it. |
| ImagePlan.EmptyFileIsNoFile | app/routes/admin+/__supplier-editor.server.tsx:19-23 | A zero-byte file counts as no file, and such a fieldset is no new image. |
| ImagePlan.NeitherIdNorFile | app/routes/admin+/__supplier-editor.server.tsx:19-29 | A fieldset with neither id nor file is in neither list. |
| ImagePlan.EmptyIdWithFileInBoth | app/routes/admin+/__supplier-editor.server.tsx:28 | An empty-string id with a file is in both lists: `!= null` accepts it as an id, while `!i.id` treats it as missing. |
| ImagePlan.TruthyIdIsUpdateOnly | app/routes/admin+/__supplier-editor.server.tsx:110 | A non-empty id makes the fieldset an update and never a new image. |
| ImagePlan.DefaultsPlanNoChange | app/routes/admin+/__supplier-editor.server.tsx:91-103 | Fieldsets that only echo stored images plan one blob-less update per stored image, in order, and no new image. |
| ImagePlan.NewSupplierDefaultsPlanNothing | app/routes/admin+/__supplier-editor.tsx:103 | The single empty default fieldset of a new supplier plans nothing. |
| ImagePlan.StoredSupplierDefaultsKeepImages | app/routes/admin+/__supplier-editor.tsx:103 | An untouched editor for a stored supplier names every stored image, in order, and adds none. |
| ImageStore.UpdatedRow | app/routes/admin+/__supplier-editor.server.tsx:176-179 | The data of one `updateMany`: the alt text when given, and the blob and type when a file came with it. `ApplyUpdatesAt` and `ReconcileUpdates` state its effect. |
| ImageStore.ApplyUpdate | app/routes/admin+/__supplier-editor.server.tsx:176-179 | One `updateMany` by id: no effect on an unknown id, otherwise the row is updated, under its drawn id when a blob comes with it. |
| ImageStore.ApplyUpdates | app/routes/admin+/__supplier-editor.server.tsx:176-179 | The updates in order; `ApplyUpdatesFrame` and `ApplyUpdatesAt` characterise them. |
| ImageStore.CreateAll | app/routes/admin+/__supplier-editor.server.tsx:180 | The creates in order, each under its generated id; `CreateAllAt` and `CreateAllFrame` characterise them. |
| ImageStore.Reconciled | app/routes/admin+/__supplier-editor.server.tsx:174-181 | Delete, then updates, then creates; the `Reconcile` lemmas characterise the result. |
| ImageStore.UpdateIds | app/routes/admin+/__supplier-editor.server.tsx:175 | The set of ids named by the updates, in both directions. |
| ImageStore.Retain | app/routes/admin+/__supplier-editor.server.tsx:175 | `deleteMany` with `notIn`: the kept keys are exactly the stored keys that are named, with their rows unchanged. |
| ImageStore.ApplyUpdatesFrame | app/routes/admin+/__supplier-editor.server.tsx:176-179 | The updates leave every row they do not name unchanged, and introduce no key except drawn ids. |
| ImageStore.ApplyUpdatesAt | app/routes/admin+/__supplier-editor.server.tsx:176-179 | With distinct update ids, each update of a stored image leaves the row updated. A blob moves the row to its drawn id. An update of an unknown id has no effect. |
| ImageStore.CreateAllAt | app/routes/admin+/__supplier-editor.server.tsx:180 | Each new image is stored under its own generated id. |
| ImageStore.CreateAllFrame | app/routes/admin+/__supplier-editor.server.tsx:180 | Creating touches no key other than the generated ids. |
| ImageStore.ReconcileDeletesUnnamed | app/routes/admin+/__supplier-editor.server.tsx:174-181 | After the whole nested write, no stored image that the updates do not name remains. |
| ImageStore.ReconcileCreatesAll | app/routes/admin+/__supplier-editor.server.tsx:174-181 | After the whole nested write, every new image is present under its id. |
| ImageStore.ReconcileUpdates | app/routes/admin+/__supplier-editor.server.tsx:174-181 | After the whole nested write, a named stored image with a blob is under its fresh id and not its old one. Without a blob it keeps its id. Either way it holds the updated alt text and content. |
| ImageStore.ReconcileKeys | app/routes/admin+/__supplier-editor.server.tsx:174-181 | Every resulting image id is a named stored id, a drawn id, or a new image's id. |
| ImageStore.ReconcileImages | app/routes/admin+/__supplier-editor.server.tsx:174-181 | The step-by-step delete, in-order updates and in-order creates yield exactly the specified reconciled rows. |
| SupplierActions.Submit | app/routes/admin+/__supplier-editor.server.tsx:40-122 | A submission succeeds exactly when the intent is submit and validation passed, carrying the value. It is an error exactly when the intent is submit and validation failed, carrying the issues. |
| SupplierActions.ReplyStatus | app/routes/admin+/__supplier-editor.server.tsx:124-129 | An unsuccessful submission is answered with 400 if and only if its status is error, and with 200 if and only if it has no status. |
| SupplierActions.SupplierSaved | app/routes/admin+/__supplier-editor.server.tsx:185-188 | The redirect is to `/admin/suppliers/<username>/photo`, with the toast "Supplier created" and "Thanks for adding <username> as a supplier!". |
| SupplierActions.ParseNewSupplier | app/routes/admin+/suppliers.new.tsx:33-41 | The new-supplier schema accepts exactly valid required fields, valid-or-absent number and website, and a category. A rejection carries an issue. The value holds each validated field as its validator parsed it. |
| SupplierActions.NewSupplierAccepts | app/routes/admin+/suppliers.new.tsx:33-41 | The new-supplier schema field by field: required keys present and accepted, number and website absent or accepted, a category present. |
| SupplierActions.NewSupplierIssues | app/routes/admin+/suppliers.new.tsx:33-41 | The fields that schema reports: one per refused or missing key. |
| SupplierActions.NewSupplierClaim | app/routes/admin+/suppliers.new.tsx:71-94 | What the new-supplier `superRefine` reads from `data`: the username, the email and the number. Each is its validator's output, or the submitted string when refused. |
| SupplierActions.NewSupplierAborts | app/routes/admin+/suppliers.new.tsx:33-41 | The parse aborts exactly when a required key is missing. |
| SupplierActions.ValidateNewSupplier | app/routes/admin+/suppliers.new.tsx:57-97 | An aborted parse reports exactly its schema issues. Otherwise the duplicate check runs against the first stored user sharing an identity field, and its flag is reported beside the schema's issues. The value is accepted exactly when the schema accepts and nothing is flagged. |
| SupplierActions.NewSupplierAcceptsIff | app/routes/admin+/suppliers.new.tsx:57-97 | End to end: the form is accepted if and only if the schema accepts it and no stored user shares its username, email or number. |
| SupplierActions.ClashingSubmissionIsRefused | app/routes/admin+/suppliers.new.tsx:57-104 | A submission some stored user clashes with is never a success. Submitted, it is answered with 400, so `CreateSupplier` writes nothing. |
| SupplierActions.TransformEditor | app/routes/admin+/__supplier-editor.server.tsx:87-119 | The transform keeps the fields and replaces a missing image list by an empty one before planning updates and new images. |
| SupplierActions.ValidateEditor | app/routes/admin+/__supplier-editor.server.tsx:40-122 | An aborted parse reports exactly its schema issues. Otherwise the editor's duplicate check runs against the first other user sharing an identity field, and its flag is reported beside the schema's issues. The value is transformed exactly when the schema accepts and nothing is flagged. |
| SupplierActions.EditorClaim | app/routes/admin+/__supplier-editor.server.tsx:60-86 | What the editor's `superRefine` reads from `data`: the username, the email and the number. Each is its validator's output, or the submitted string when refused. |
| SupplierActions.EditorAcceptsIff | app/routes/admin+/__supplier-editor.server.tsx:40-122 | End to end, with non-empty identity fields: the editor accepts if and only if the schema does and no user other than the current one shares the username, email or number. A refusal carries issues. |
| SupplierActions.RefusedFieldsAreStillChecked | app/routes/admin+/__supplier-editor.server.tsx:42-70 | A username that its validator refuses and that the candidate holds is reported twice: as refused and as taken. |
| SupplierActions.NewSupplierRow | app/routes/admin+/suppliers.new.tsx:114-125 | The created row holds the submitted fields, the chosen category, the supplier role when it exists, no location and no images. |
| SupplierActions.UpsertKey | app/routes/admin+/__supplier-editor.server.tsx:152 | The upsert key: the submitted id, or the sentinel `__new_supplier`. |
| SupplierActions.EditorCreatedRow | app/routes/admin+/__supplier-editor.server.tsx:153-164 | The create branch's row; `MissingIdCreates` states what it holds. |
| SupplierActions.EditorUpdatedRow | app/routes/admin+/__supplier-editor.server.tsx:165-182 | The update branch's row; `UpdateKeepsRoles`, `UpdateReconcilesImages` and `UpdateKeepsAbsentOptionals` state what it holds. |
| SupplierActions.Upserted | app/routes/admin+/__supplier-editor.server.tsx:150-183 | The users after the upsert: update of the row under the key if there is one, otherwise a new row under the drawn id. |
| SupplierActions.MissingIdCreates | app/routes/admin+/__supplier-editor.server.tsx:150-164 | Without an id, the upsert adds one user under a fresh id and changes no other user. The new user holds the supplier role and exactly the new images under their ids. |
| SupplierActions.UpdateKeepsRoles | app/routes/admin+/__supplier-editor.server.tsx:165-182 | An update keeps the stored roles and the set of users, and changes no other user. |
| SupplierActions.UpdateReconcilesImages | app/routes/admin+/__supplier-editor.server.tsx:174-181 | On update, unnamed images are deleted, new images created, and a named image moves to its fresh id exactly when a blob comes with it. |
| SupplierActions.UpdateKeepsAbsentOptionals | app/routes/admin+/__supplier-editor.server.tsx:165-171 | An update without number or website leaves the stored ones: the editor cannot clear them. |
| SupplierActions.SupplierDirectory.SupplierRoleId | app/routes/admin+/__supplier-editor.server.tsx:145-148 | The supplier role's id if and only if a role of that name exists. |
| SupplierActions.SupplierDirectory.NewSupplierLoader | app/routes/admin+/suppliers.new.tsx:43-51 | A non-admin is refused. An admin receives the category list. |
| SupplierActions.SupplierDirectory.CreateSupplier | app/routes/admin+/suppliers.new.tsx:53-131 | A non-admin or an unsuccessful submission writes nothing. The refusal or the status reply is returned. A success adds exactly one new user row and redirects to its photo page. |
| SupplierActions.SupplierDirectory.SaveSupplier | app/routes/admin+/__supplier-editor.server.tsx:31-189 | A non-admin or an unsuccessful submission writes nothing. A success leaves the users as the specified upsert and redirects to the photo page. |
| Paystack.Expect | app/utils/paystack.server.tsx:25-32 | A reply yields its payload if and only if it is ok and well-formed. A not-ok reply throws the endpoint's message, and a malformed one is rejected with 400. |
| Paystack.GetBanks | app/utils/paystack.server.tsx:15-37 | The request is an unauthenticated GET of the South African bank list. The banks returned are exactly the reply's list. A failure throws "Failed to retrieve banks list" or is rejected with 400. |
| Paystack.SubAccountRequest | app/utils/paystack.server.tsx:50-63 | A bearer-authorised POST to `/subaccount` carrying the account's business name and bank, the percentage and the owner's email. The account number is rendered as a string that reads back to the stored number. |
| Paystack.BankAccountStore.AddSubAccount | app/utils/paystack.server.tsx:45-82 | A failed reply writes nothing. An ok reply writes the code onto the account row with that id, changing nothing else, and returns it. A missing row fails with a not-found error. |
| Paystack.TransactionRequest | app/utils/paystack.server.tsx:97-120 | A bearer-authorised POST to `/transaction/initialize`. The amount is in minor units: divisible by 100, with 100ths equal to the amount. The split is by percentage, borne by the account: 91 to the supplier's sub-account, then 5 to the organiser's. |
| Paystack.StartTransaction | app/utils/paystack.server.tsx:90-134 | The result is exactly the parsed authorisation URL. A not-ok reply throws "Failed to initiate split payment", and a malformed one is rejected with 400. |
| Paystack.SplitSharesSum | app/utils/paystack.server.tsx:112-116 | The two shares sum to 96, leaving 4 % to the platform. |
| Paystack.MockedCheckoutPage | tests/mocks/paystack.ts:59-68 | With the test double's reply, the transaction yields `/fake-paystack-page`. |
| Paystack.DecimalString | app/utils/paystack.server.tsx:59 | `toString()` of a big integer: a minus sign on negatives, then the shortest digits. `DecimalRoundTrip` reads it back. |
| Paystack.NatDigits | app/utils/paystack.server.tsx:59 | Base-ten digits of a natural number, at least one, with no leading zero unless the number is zero. |
| Paystack.NatDigitsRoundTrip | app/utils/paystack.server.tsx:59 | Reading the digits back gives the number. |
| Paystack.DecimalRoundTrip | app/utils/paystack.server.tsx:59 | The string sent for any account number, negative ones included, parses back to that number. |
| Search.SplitOn | app/routes/_marketing+/index.tsx:30 | `split` always yields at least one piece. |
| Search.SplitJoin | app/routes/_marketing+/index.tsx:30 | Joining the pieces with the separator gives back the string. |
| Search.SplitPiecesFree | app/routes/_marketing+/index.tsx:30 | No piece contains the separator. |
| Search.SplitCount | app/routes/_marketing+/index.tsx:30 | There is one piece more than there are separators. |
| Search.Trim | app/routes/_marketing+/index.tsx:30 | The trimmed string is the part of the original between the first and the last character that is not white space. Everything cut before and after it is white space, and the result neither starts nor ends with white space. |
| Search.TrimIdempotent | app/routes/_marketing+/index.tsx:30 | Trimming twice is trimming once. |
| Search.QueryFor | app/routes/_marketing+/index.tsx:24-25 | `like` wraps the search term, or nothing, in `%`. `cat` wraps a non-empty category in `%`, and is `%` alone otherwise. |
| Search.CategoryNames | app/routes/_marketing+/index.tsx:30 | One trimmed name per comma-separated piece, in order. |
| Search.ShapeRow | app/routes/_marketing+/index.tsx:28-31 | The other columns are kept. Categories are present in the result if and only if they were present in the row, and then they are the trimmed names. |
| Search.ShapeRows | app/routes/_marketing+/index.tsx:28-31 | One shaped user per row, in the query's order. |
| Search.Loader | app/routes/_marketing+/index.tsx:12-34 | The loader redirects to `/` if and only if both parameters are present and empty. Otherwise the page has status `idle`, the shaped rows of the query for the two patterns, the filter as given, and every category name. |
| Search.NoCategoryMatchesAll | app/routes/_marketing+/index.tsx:25 | A missing or empty category yields the match-all pattern `%`. |
| Search.MissingSearchIsEmptySearch | app/routes/_marketing+/index.tsx:24 | A missing search term asks the same query as an empty one, `%%`. |
| Search.OneEmptyParameterDoesNotRedirect | app/routes/_marketing+/index.tsx:20-22 | One empty parameter alone, or with a non-empty other, does not redirect. |
| Search.ShapedNamesClean | app/routes/_marketing+/index.tsx:30 | A row gets one name per comma plus one. Every name is comma-free and neither starts nor ends with white space. |
| Search.SplitWithoutSeparator | app/routes/_marketing+/index.tsx:30 | A string without a comma is one piece, itself. |
| Search.SplitAtFirst | app/routes/_marketing+/index.tsx:30 | Splitting at the first separator gives the piece before it, then the pieces of the rest. |

## Left out

- The rendered UI is not modelled, and neither are the client-side validation and re-validation on blur. This covers the search bar, error lists and animations.
- Multipart parsing, and its `maxPartSize` cap on a single upload part, are not modelled. The cap is an I/O limit of the form parser, and only the schema's refinement of the file size is modelled.
- SupplierForm.ParseEditor, SupplierActions.ParseNewSupplier: the field validators for username, name, email, number, website and about come from a module that is not part of this model. Each is an opaque parser that accepts a string, with a possibly normalised value, or refuses it. A refusal is assumed not to abort the parse, as an ordinary length, pattern or format check does not; a validator that aborts would skip the duplicate check.
- SupplierActions.ValidateEditor, SupplierActions.ValidateNewSupplier: the users the conflict queries scan are a sequence given beside the form, in the store's order. They are not derived from `SupplierDirectory.users`. The store's scan order itself is not modelled.
- The admin gate is modelled as a boolean. How `requireUserWithRole` reads the session and role is not modelled.
- The ORM does not document the order of the nested image writes. The model uses the written one: delete, then updates, then creates.
- The id generator is an oracle. Fresh ids are parameters, and their distinctness is a hypothesis.
- SupplierActions.NewSupplierRow, SupplierActions.SupplierDirectory.CreateSupplier, SupplierActions.Upserted: a missing supplier role is modelled as connecting no role. The ORM would reject a `connect` with an undefined id.
- Request logging and `console.error` are not modelled.
- Validation issues are modelled as a set of fields plus the flagged field, without order or messages.
- `Paystack.Expect`: the 400 rejection's body is not modelled. It is the schema issues joined by newlines.
- `Paystack.TransactionRequest`: the amount and the percentage are integers. JavaScript's floating-point `amount * 100` is not modelled.
- `Paystack.BankAccountStore.AddSubAccount`: the secret key is a parameter rather than an environment read. The error thrown by the store on a missing row is modelled only by its message.
- None of the payment route is modelled. It covers the booking status changes, the upsert of both parties' bank accounts, and the guard against re-registering an account that already has a sub-account code. That route is not part of this model.
- The raw SQL of the search query is not modelled. Its result rows are a function of the two patterns, and their other columns are an opaque value.
- Backup and restore routes, database setup and the remaining routes are not part of this model.
