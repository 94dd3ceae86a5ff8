/**
 * The duplicate-identity check both supplier forms refine their schema with.
 * The store is asked for the first user that shares the username, the email
 * or the submitted number (the editor's query excludes the user it looks up
 * by the submitted id), and the check compares that one candidate field by
 * field in a fixed order, reporting at most one issue.
 */
module IdentityConflict {
  import opened Common

  /** A stored user's identity columns (username and email are required columns). */
  datatype StoredIdentity = StoredIdentity(id: string, username: string, email: string, number: Option<string>)

  /** The identity fields of the submission. */
  datatype Claim = Claim(username: string, email: string, number: Option<string>)

  /**
   * Which form runs the check. The editor flags a username or email clash
   * only when the stored value is non-empty; the new-supplier form compares
   * them directly. Both flag a number only when the stored number is non-empty.
   */
  datatype CheckSite = EditorCheck | NewSupplierCheck

  predicate UsernameClash(site: CheckSite, e: StoredIdentity, c: Claim) {
    (site.EditorCheck? ==> Truthy(e.username)) && e.username == c.username
  }

  predicate EmailClash(site: CheckSite, e: StoredIdentity, c: Claim) {
    (site.EditorCheck? ==> Truthy(e.email)) && e.email == c.email
  }

  predicate NumberClash(e: StoredIdentity, c: Claim) {
    TruthyOpt(e.number) && c.number == e.number
  }

  /** Every field on which the candidate clashes with the submission. */
  function Clashes(site: CheckSite, existing: Option<StoredIdentity>, c: Claim): set<Field> {
    match existing
    case None => {}
    case Some(e) =>
      (if UsernameClash(site, e, c) then {Username} else {}) +
      (if EmailClash(site, e, c) then {Email} else {}) +
      (if NumberClash(e, c) then {Number} else {})
  }

  /** The order in which the check looks at the fields. */
  function Rank(f: Field): nat {
    match f
    case Username => 0
    case Email => 1
    case Number => 2
    case _ => 3
  }

  /**
   * The superRefine body: the first clashing field in the order username,
   * email, number, or none. It is the clash of least rank, and there is an
   * issue exactly when some field clashes.
   */
  function FirstConflict(site: CheckSite, existing: Option<StoredIdentity>, c: Claim): (r: Option<Field>)
    ensures r.None? <==> Clashes(site, existing, c) == {}
    ensures r.Some? ==> r.value in Clashes(site, existing, c)
    ensures r.Some? ==> forall g :: g in Clashes(site, existing, c) ==> Rank(r.value) <= Rank(g)
    ensures r.Some? ==> r.value in {Username, Email, Number}
  {
    match existing
    case None => None
    case Some(e) =>
      if UsernameClash(site, e, c) then Some(Username)
      else if EmailClash(site, e, c) then Some(Email)
      else if NumberClash(e, c) then Some(Number)
      else None
  }

  /** A number clash needs a stored number: an absent or empty one never clashes. */
  lemma NumberNeedsStoredNumber(site: CheckSite, e: StoredIdentity, c: Claim)
    requires !TruthyOpt(e.number)
    ensures FirstConflict(site, Some(e), c) != Some(Number)
    ensures Number !in Clashes(site, Some(e), c)
  {
  }

  /** A submission without a number never clashes on the number. */
  lemma AbsentNumberNeverClashes(site: CheckSite, existing: Option<StoredIdentity>, c: Claim)
    requires c.number.None?
    ensures FirstConflict(site, existing, c) != Some(Number)
  {
  }

  /** A username clash hides any email or number clash. */
  lemma UsernameFirst(site: CheckSite, e: StoredIdentity, c: Claim)
    requires UsernameClash(site, e, c)
    ensures FirstConflict(site, Some(e), c) == Some(Username)
  {
  }

  /** An email issue is reported exactly when the email clashes and the username does not. */
  lemma EmailSecond(site: CheckSite, e: StoredIdentity, c: Claim)
    ensures FirstConflict(site, Some(e), c) == Some(Email) <==> !UsernameClash(site, e, c) && EmailClash(site, e, c)
  {
  }

  /** A number issue is reported exactly when the number clashes and nothing before it does. */
  lemma NumberLast(site: CheckSite, e: StoredIdentity, c: Claim)
    ensures FirstConflict(site, Some(e), c) == Some(Number) <==>
      !UsernameClash(site, e, c) && !EmailClash(site, e, c) && NumberClash(e, c)
  {
  }

  /**
   * The two forms differ on an empty stored username that matches: the
   * new-supplier form flags it, the editor never does.
   */
  lemma SitesDifferOnEmptyUsername(e: StoredIdentity, c: Claim)
    requires e.username == "" && c.username == ""
    ensures FirstConflict(NewSupplierCheck, Some(e), c) == Some(Username)
    ensures FirstConflict(EditorCheck, Some(e), c) != Some(Username)
  {
  }

  // ---------------------------------------------------------------------
  // The store queries the check runs.

  /**
   * The `OR` filter of the conflict query: the same username, the same email,
   * or the same number when one was submitted (an undefined filter value is
   * dropped from the `OR`).
   */
  predicate SharesIdentity(u: StoredIdentity, c: Claim) {
    u.username == c.username || u.email == c.email || (c.number.Some? && u.number == c.number)
  }

  /** The whole filter: the `NOT` on the looked-up id, when there is one, and the `OR`. */
  predicate Eligible(u: StoredIdentity, excluded: Option<string>, c: Claim) {
    (excluded.None? || u.id != excluded.value) && SharesIdentity(u, c)
  }

  /** Where `findFirst` stops scanning the users in the store's order: the first eligible one, or the end. */
  function FirstEligible(users: seq<StoredIdentity>, excluded: Option<string>, c: Claim): (i: nat)
    ensures i <= |users|
    ensures i < |users| ==> Eligible(users[i], excluded, c)
    ensures forall j :: 0 <= j < i ==> !Eligible(users[j], excluded, c)
    decreases |users|
  {
    if users == [] then 0
    else if Eligible(users[0], excluded, c) then 0
    else 1 + FirstEligible(users[1..], excluded, c)
  }

  /** The candidate the conflict query returns. */
  function Candidate(users: seq<StoredIdentity>, excluded: Option<string>, c: Claim): (r: Option<StoredIdentity>)
    ensures r.None? <==> forall j :: 0 <= j < |users| ==> !Eligible(users[j], excluded, c)
    ensures r.Some? ==> r.value in users && Eligible(r.value, excluded, c)
  {
    var i := FirstEligible(users, excluded, c);
    if i < |users| then Some(users[i]) else None
  }

  /**
   * The editor's lookup of the current user, `findFirst` by the submitted id.
   * Without an id the filter is empty, so the store's first user is returned.
   */
  function CurrentUserId(users: seq<StoredIdentity>, id: Option<string>): (r: Option<string>)
    ensures id.None? ==> (r.Some? <==> |users| > 0) && (r.Some? ==> r.value == users[0].id)
    ensures id.Some? ==> (r.Some? <==> exists i :: 0 <= i < |users| && users[i].id == id.value)
    ensures id.Some? && r.Some? ==> r.value == id.value
  {
    if id.None? then (if |users| > 0 then Some(users[0].id) else None)
    else if exists i :: 0 <= i < |users| && users[i].id == id.value then id
    else None
  }

  /** The editor's candidate: the first user other than the current one that shares an identity field. */
  function EditorCandidate(users: seq<StoredIdentity>, id: Option<string>, c: Claim): Option<StoredIdentity> {
    Candidate(users, CurrentUserId(users, id), c)
  }

  /** The new-supplier form's candidate: the first user that shares an identity field. */
  function NewSupplierCandidate(users: seq<StoredIdentity>, c: Claim): Option<StoredIdentity> {
    Candidate(users, None, c)
  }

  /** A submitted number, when present, is non-empty. */
  predicate NumberAbsentOrTruthy(c: Claim) {
    c.number.None? || TruthyOpt(c.number)
  }

  /**
   * The editor flags a duplicate exactly when some user other than the one
   * being edited shares a non-empty username, email or number with the
   * submission.
   */
  lemma EditorFlagsOtherUsers(users: seq<StoredIdentity>, id: Option<string>, c: Claim)
    requires Truthy(c.username) && Truthy(c.email) && NumberAbsentOrTruthy(c)
    ensures FirstConflict(EditorCheck, EditorCandidate(users, id, c), c).Some? <==>
      exists j :: 0 <= j < |users| && Eligible(users[j], CurrentUserId(users, id), c)
  {
    var cand := EditorCandidate(users, id, c);
    if cand.Some? {
      var e := cand.value;
      assert UsernameClash(EditorCheck, e, c) || EmailClash(EditorCheck, e, c) || NumberClash(e, c);
    }
  }

  /**
   * Re-saving a supplier under its own id never clashes with its own row: when
   * no other user shares its username, email or number, nothing is flagged.
   */
  lemma ResavingOwnIdentityPasses(users: seq<StoredIdentity>, id: string, c: Claim)
    requires exists i :: 0 <= i < |users| && users[i].id == id
    requires forall j :: 0 <= j < |users| && users[j].id != id ==> !SharesIdentity(users[j], c)
    ensures EditorCandidate(users, Some(id), c).None?
    ensures FirstConflict(EditorCheck, EditorCandidate(users, Some(id), c), c).None?
  {
    assert CurrentUserId(users, Some(id)) == Some(id);
  }

  /** When editing an existing user, the candidate is never that user. */
  lemma EditedUserIsNeverCandidate(users: seq<StoredIdentity>, id: string, c: Claim)
    requires exists i :: 0 <= i < |users| && users[i].id == id
    ensures EditorCandidate(users, Some(id), c).Some? ==> EditorCandidate(users, Some(id), c).value.id != id
  {
    assert CurrentUserId(users, Some(id)) == Some(id);
  }

  /**
   * Without a submitted id the current-user lookup has no filter, so the
   * store's first user is taken as the one being edited and is never checked
   * against, even when it holds the submitted username.
   */
  lemma NoIdSkipsFirstUser(users: seq<StoredIdentity>, c: Claim)
    requires |users| > 0
    ensures CurrentUserId(users, None) == Some(users[0].id)
    ensures EditorCandidate(users, None, c).Some? ==> EditorCandidate(users, None, c).value.id != users[0].id
  {
  }

  /**
   * The new-supplier form flags a duplicate exactly when some stored user
   * shares the username, the email or the number.
   */
  lemma NewSupplierFlagsAnyMatch(users: seq<StoredIdentity>, c: Claim)
    requires NumberAbsentOrTruthy(c)
    ensures FirstConflict(NewSupplierCheck, NewSupplierCandidate(users, c), c).Some? <==>
      exists j :: 0 <= j < |users| && SharesIdentity(users[j], c)
  {
    var cand := NewSupplierCandidate(users, c);
    if cand.Some? {
      var e := cand.value;
      assert UsernameClash(NewSupplierCheck, e, c) || EmailClash(NewSupplierCheck, e, c) || NumberClash(e, c);
    } else {
      forall j | 0 <= j < |users| ensures !SharesIdentity(users[j], c) {
        assert !Eligible(users[j], None, c);
      }
    }
  }

  /** On non-empty stored username and email the two forms agree. */
  lemma SitesAgreeOnNonEmpty(e: StoredIdentity, c: Claim)
    requires Truthy(e.username) && Truthy(e.email)
    ensures FirstConflict(EditorCheck, Some(e), c) == FirstConflict(NewSupplierCheck, Some(e), c)
  {
  }
}
