/** The two forms of the home page: account creation and follow selection.
    The form library calls a form's submit handler only when the form's
    schema accepts every field; `Submit*` below is that call, validation
    first and handler second. */
module HomeForms {
  import opened Wrappers
  import opened Schema

  /** The create-account form's field values. */
  datatype CreateValues = CreateValues(firstName: string, lastName: string, email: string)

  /** The body of a create-user request (`payload.data`). */
  datatype CreateRequest = CreateRequest(firstName: string, lastName: string, email: string)

  /** The follow form's field values: two user ids. */
  datatype SelectValues = SelectValues(selectedUser: string, followingTo: string)

  /** A follow request: the user whose record is updated, and the new value
      of its `following` field. */
  datatype FollowRequest = FollowRequest(selectedUser: string, following: string)

  /** The sign-up schema accepts the values. */
  predicate SignupValid(v: CreateValues, isEmail: string -> bool)
  {
    && PassesAll(NameField, v.firstName, isEmail)
    && PassesAll(NameField, v.lastName, isEmail)
    && PassesAll(EmailField, v.email, isEmail)
  }

  /** The create form's submit handler: copies the three values into the
      request body. */
  function OnCreateSubmit(v: CreateValues): CreateRequest
  {
    CreateRequest(v.firstName, v.lastName, v.email)
  }

  /** Submitting the create form: the request issued, if any. */
  function SubmitCreate(v: CreateValues, isEmail: string -> bool): (r: Option<CreateRequest>)
    ensures r.Some? <==>
      && 2 <= |v.firstName| <= 50
      && 2 <= |v.lastName| <= 50
      && v.email != "" && isEmail(v.email)
    ensures r.Some? ==>
      && r.value.firstName == v.firstName
      && r.value.lastName == v.lastName
      && r.value.email == v.email
  {
    NameFieldValid(v.firstName, isEmail);
    NameFieldValid(v.lastName, isEmail);
    EmailFieldValid(v.email, isEmail);
    if SignupValid(v, isEmail) then Some(OnCreateSubmit(v)) else None
  }

  /** A one-character first name blocks the submission, whatever the
      other fields hold. */
  lemma ShortFirstNameBlocks(v: CreateValues, isEmail: string -> bool)
    requires |v.firstName| == 1
    ensures SubmitCreate(v, isEmail) == None
  {
  }

  /** The select schema accepts the values. */
  predicate SelectValid(v: SelectValues)
  {
    && PassesAll(IdField, v.selectedUser, _ => true)
    && PassesAll(IdField, v.followingTo, _ => true)
  }

  /** The follow form's submit handler: issues a request only when both ids
      are non-empty; the request addresses the selected user and sets its
      `following` field to the target. Its guard is tied to the select
      schema by `FollowGuardRedundant`. */
  function OnFollowSubmit(v: SelectValues): (r: Option<FollowRequest>)
    ensures r.Some? <==> |v.selectedUser| > 0 && |v.followingTo| > 0
    ensures r.Some? ==> r.value.selectedUser == v.selectedUser && r.value.following == v.followingTo
  {
    if |v.selectedUser| > 0 && |v.followingTo| > 0 then
      Some(FollowRequest(v.selectedUser, v.followingTo))
    else
      None
  }

  /** Submitting the follow form: the request issued, if any. */
  function SubmitFollow(v: SelectValues): (r: Option<FollowRequest>)
    ensures r.Some? <==> v.selectedUser != "" && v.followingTo != ""
    ensures r.Some? ==> r.value == FollowRequest(v.selectedUser, v.followingTo)
  {
    IdFieldValid(v.selectedUser, _ => true);
    IdFieldValid(v.followingTo, _ => true);
    if SelectValid(v) then OnFollowSubmit(v) else None
  }

  /** The handler's own emptiness guard never fires once the schema has
      accepted the values: it repeats the schema's check. */
  lemma FollowGuardRedundant(v: SelectValues)
    ensures SelectValid(v) <==> OnFollowSubmit(v).Some?
  {
    IdFieldValid(v.selectedUser, _ => true);
    IdFieldValid(v.followingTo, _ => true);
  }

  /** Nothing stops a user from following itself. */
  lemma SelfFollowAccepted(id: string)
    requires id != ""
    ensures SubmitFollow(SelectValues(id, id)) == Some(FollowRequest(id, id))
  {
  }
}
