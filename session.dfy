/**
 * The signed-in user the client pages read and update through the auth context
 * (client/src/contexts/AuthContext.tsx): only the merge of `updateUser` is modelled.
 */
module Session {
  import opened Wrappers

  datatype AuthUser = AuthUser(
    id: string,
    email: string,
    firstName: Option<string>,
    lastName: Option<string>,
    profileCompleted: bool,
    surveyCompleted: bool)

  /** A `Partial<User>`: the fields an update names. */
  datatype UserPatch = UserPatch(
    firstName: Option<string>,
    lastName: Option<string>,
    profileCompleted: Option<bool>,
    surveyCompleted: Option<bool>)

  const NoChange := UserPatch(None, None, None, None)

  /** What a form page leaves behind after a submission: where it navigated, and the error it shows. */
  datatype PageOutcome = PageOutcome(navigatedTo: Option<string>, error: Option<string>)

  /** `{ ...user, ...userData }`: each field the patch names wins. */
  function Merge(user: AuthUser, patch: UserPatch): (r: AuthUser)
    ensures r.id == user.id && r.email == user.email
    ensures r.firstName == (if patch.firstName.Some? then patch.firstName else user.firstName)
    ensures r.lastName == (if patch.lastName.Some? then patch.lastName else user.lastName)
    ensures r.profileCompleted == (if patch.profileCompleted.Some? then patch.profileCompleted.value else user.profileCompleted)
    ensures r.surveyCompleted == (if patch.surveyCompleted.Some? then patch.surveyCompleted.value else user.surveyCompleted)
  {
    user.(
      firstName := if patch.firstName.Some? then patch.firstName else user.firstName,
      lastName := if patch.lastName.Some? then patch.lastName else user.lastName,
      profileCompleted := if patch.profileCompleted.Some? then patch.profileCompleted.value else user.profileCompleted,
      surveyCompleted := if patch.surveyCompleted.Some? then patch.surveyCompleted.value else user.surveyCompleted)
  }

  /** `updateUser`: merges into the signed-in user, and does nothing when no one is signed in. */
  function UpdateUser(user: Option<AuthUser>, patch: UserPatch): (r: Option<AuthUser>)
    ensures r.Some? <==> user.Some?
    ensures r.Some? ==> r.value == Merge(user.value, patch)
  {
    if user.None? then None else Some(Merge(user.value, patch))
  }

  /** Applying the same patch twice is applying it once. */
  lemma UpdateUserIdempotent(user: Option<AuthUser>, patch: UserPatch)
    ensures UpdateUser(UpdateUser(user, patch), patch) == UpdateUser(user, patch)
  {
  }
}
