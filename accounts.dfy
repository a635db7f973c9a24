/**
 * Authentication in server/src/graphql/resolvers.js: `getUser`, the `signUp` and
 * `signIn` guards and the profile update. Token signing and verification (JWT) and
 * password hashing (bcrypt) are foreign code: they enter as function parameters.
 */
module Accounts {
  import opened Wrappers
  import opened Collections
  import opened StoreData

  const HeaderRequired := "Authorization header must be provided"
  const InvalidToken := "Invalid/Expired token"
  const EmailInUse := "Email already in use"
  const InvalidCredentials := "Invalid email or password"

  /**
   * What `getUser` reads from a request: the Authorization header, if any, and the
   * JWT verifier, which yields the `id` claim of a valid, unexpired token.
   */
  datatype Credentials = Credentials(authorization: Option<string>, verify: string -> Option<string>)

  datatype AuthPayload = AuthPayload(token: string, user: User)

  /** The profile fields `updateProfile` takes; an absent GraphQL field is None. */
  datatype ProfileInput = ProfileInput(
    firstName: Option<string>, lastName: Option<string>,
    phone: Option<string>, birthDate: Option<string>,
    address: Option<AddressInput>)

  /** `header.replace('Bearer ', '')`: removes the first occurrence of "Bearer ". */
  function StripBearer(h: string): string
  {
    if "Bearer " <= h then h[|"Bearer "|..]
    else if h == [] then []
    else [h[0]] + StripBearer(h[1..])
  }

  /** A header that contains no "Bearer " anywhere is passed to the verifier unchanged. */
  lemma {:induction false} StripBearerNoPrefix(h: string)
    requires !Contains(h, "Bearer ")
    ensures StripBearer(h) == h
  {
    if h != [] {
      StripBearerNoPrefix(h[1..]);
      assert [h[0]] + h[1..] == h;
    }
  }

  /** An empty header counts as missing: the source tests it for truthiness. */
  predicate HeaderMissing(auth: Credentials)
  {
    auth.authorization.None? || auth.authorization.value == ""
  }

  /** The user id the verifier finds in the header's token, if any. */
  function TokenSubject(auth: Credentials): Option<string>
    requires !HeaderMissing(auth)
  {
    auth.verify(StripBearer(auth.authorization.value))
  }

  /** `getUser(context)`: the caller, or the authentication error the request fails with. */
  function Authenticate(users: seq<User>, auth: Credentials): (r: Result<User, Error>)
    ensures HeaderMissing(auth) ==> r == Failure(AuthenticationError(HeaderRequired))
    ensures !HeaderMissing(auth) && r.Failure? ==> r.error == AuthenticationError(InvalidToken)
    ensures r.Success? <==>
      !HeaderMissing(auth) && TokenSubject(auth).Some? &&
      exists k :: 0 <= k < |users| && users[k].id == TokenSubject(auth).value
    ensures r.Success? ==> r.value in users && Some(r.value.id) == TokenSubject(auth)
    ensures r.Success? ==> UserIndex(users, r.value.id).Some? && users[UserIndex(users, r.value.id).value] == r.value
  {
    if HeaderMissing(auth) then Failure(AuthenticationError(HeaderRequired))
    else
      match TokenSubject(auth)
      case None => Failure(AuthenticationError(InvalidToken))
      case Some(id) =>
        match UserIndex(users, id)
        case None => Failure(AuthenticationError(InvalidToken))
        case Some(i) => Success(users[i])
  }

  /** Some stored user already has `email`. */
  predicate EmailTaken(users: seq<User>, email: string)
  {
    exists k :: 0 <= k < |users| && users[k].email == email
  }

  /** No two stored users share an email address. */
  ghost predicate DistinctEmails(users: seq<User>)
  {
    forall i, j :: 0 <= i < j < |users| ==> users[i].email != users[j].email
  }

  /** The record `signUp` stores: both onboarding flags start false. */
  function NewUser(id: string, email: string, hashed: string): (u: User)
    ensures !u.profileCompleted && !u.surveyCompleted
    ensures u.id == id && u.email == email && u.password == hashed && u.address.None?
  {
    User(id, email, hashed, None, None, None, None, None, false, false)
  }

  /** Registering a new email keeps emails distinct. */
  lemma SignUpKeepsEmailsDistinct(users: seq<User>, u: User)
    requires DistinctEmails(users) && !EmailTaken(users, u.email)
    ensures DistinctEmails(users + [u])
  {
  }

  function HasEmail(email: string): User -> bool
  {
    (u: User) => u.email == email
  }

  /**
   * `signIn`: the first user with `email` whose stored hash `matches` the password.
   * An unknown email and a wrong password fail with the same message.
   */
  function SignIn(users: seq<User>, email: string, password: string,
                  matches: (string, string) -> bool, sign: User -> string): (r: Result<AuthPayload, Error>)
    ensures r.Failure? ==> r.error == UserInputError(InvalidCredentials)
    ensures !EmailTaken(users, email) ==> r.Failure?
    ensures r.Success? ==>
      r.value.user in users && r.value.user.email == email &&
      matches(password, r.value.user.password) && r.value.token == sign(r.value.user)
    ensures FirstIndex(users, HasEmail(email)).Some? ==>
      var u := users[FirstIndex(users, HasEmail(email)).value];
      (matches(password, u.password) <==> r == Success(AuthPayload(sign(u), u)))
  {
    match Find(users, HasEmail(email))
    case None => Failure(UserInputError(InvalidCredentials))
    case Some(u) =>
      if !matches(password, u.password) then Failure(UserInputError(InvalidCredentials))
      else Success(AuthPayload(sign(u), u))
  }

  /** Signing in right after signing up, with a password the stored hash matches, returns the new user. */
  lemma {:induction false} SignUpThenSignIn(users: seq<User>, id: string, email: string, hashed: string,
                                            password: string, matches: (string, string) -> bool,
                                            sign: User -> string)
    requires !EmailTaken(users, email) && matches(password, hashed)
    ensures SignIn(users + [NewUser(id, email, hashed)], email, password, matches, sign)
            == Success(AuthPayload(sign(NewUser(id, email, hashed)), NewUser(id, email, hashed)))
  {
    var all := users + [NewUser(id, email, hashed)];
    var p := HasEmail(email);
    assert forall k :: 0 <= k < |users| ==> !p(all[k]);
    assert p(all[|users|]);
    assert FirstIndex(all, p) == Some(|users|);
  }

  /** A password that the stored hash does not match fails exactly as an unknown email does. */
  lemma SignInFailuresAlike(users: seq<User>, known: string, unknown: string, password: string,
                            matches: (string, string) -> bool, sign: User -> string)
    requires !EmailTaken(users, unknown)
    requires forall k :: 0 <= k < |users| && users[k].email == known ==> !matches(password, users[k].password)
    ensures SignIn(users, known, password, matches, sign) == SignIn(users, unknown, password, matches, sign)
  {
  }

  /** `updateProfile`'s new user record: the given fields, an address if one was given, and the flag set. */
  function UpdatedProfile(user: User, input: ProfileInput, addressId: string): (r: User)
    ensures r.profileCompleted && r.surveyCompleted == user.surveyCompleted
    ensures r.id == user.id && r.email == user.email && r.password == user.password
    ensures r.firstName == input.firstName && r.lastName == input.lastName
    ensures r.phone == input.phone && r.birthDate == input.birthDate
    ensures r.address == if input.address.Some? then Some(Address(addressId, input.address.value)) else user.address
  {
    var updated := user.(firstName := input.firstName, lastName := input.lastName,
                         phone := input.phone, birthDate := input.birthDate,
                         profileCompleted := true);
    if input.address.Some? then updated.(address := Some(Address(addressId, input.address.value)))
    else updated
  }

  function WithId(id: string): User -> bool
  {
    (u: User) => u.id == id
  }

  /** The index of the user with `id` (`users.findIndex(u => u.id === id)`). */
  function UserIndex(users: seq<User>, id: string): Option<nat>
  {
    FirstIndex(users, WithId(id))
  }

  /**
   * `users[users.findIndex(u => u.id === id)] = updated`. Were the index -1, the
   * assignment would name no element, so the list would stay as it was.
   */
  function ReplaceUser(users: seq<User>, id: string, updated: User): (r: seq<User>)
    ensures |r| == |users|
    ensures forall k :: 0 <= k < |users| && UserIndex(users, id) != Some(k) ==> r[k] == users[k]
    ensures UserIndex(users, id).Some? ==> r[UserIndex(users, id).value] == updated
  {
    match UserIndex(users, id)
    case None => users
    case Some(i) => users[i := updated]
  }

  /** Replacing a user by a record with the same email keeps emails distinct. */
  lemma ReplaceUserKeepsEmailsDistinct(users: seq<User>, id: string, updated: User)
    requires DistinctEmails(users)
    requires UserIndex(users, id).Some? ==> updated.email == users[UserIndex(users, id).value].email
    ensures DistinctEmails(ReplaceUser(users, id, updated))
  {
    var r := ReplaceUser(users, id, updated);
    forall i, j | 0 <= i < j < |r|
      ensures r[i].email != r[j].email
    {
      assert r[i].email == users[i].email && r[j].email == users[j].email;
    }
  }
}
