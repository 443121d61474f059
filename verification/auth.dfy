/** The mock accounts of contexts/AuthContext.tsx: sign-in and sign-up
    validation and the profile merge. Ids and timestamps are parameters. */
module Auth {
  import opened Common
  import Text

  const MinPasswordLength: nat := 6
  const MinDisplayNameLength: nat := 2

  datatype User = User(id: string, email: string, displayName: string, photoURL: Option<string>, createdAt: string)

  datatype AuthError = InvalidEmail | PasswordTooShort | DisplayNameTooShort

  /** `signIn`: the email check comes first, then the password length. */
  function SignIn(email: string, password: string, newId: string, now: string): (r: Result<User, AuthError>)
    ensures r == Failure(InvalidEmail) <==> '@' !in email
    ensures r == Failure(PasswordTooShort) <==> '@' in email && |password| < MinPasswordLength
    ensures r.Success? <==> '@' in email && |password| >= MinPasswordLength
    // the display name is the part of the email before the first '@'
    ensures r.Success? ==>
      && r.value.email == email && r.value.id == newId && r.value.createdAt == now
      && r.value.photoURL.None?
      && r.value.displayName + "@" <= email && '@' !in r.value.displayName
  {
    if '@' !in email then Failure(InvalidEmail)
    else if |password| < MinPasswordLength then Failure(PasswordTooShort)
    else
      var name := Text.BeforeFirst(email, '@');
      assert name + "@" <= email by {
        assert email[|name|] == '@';
        assert (name + "@") == email[..|name| + 1];
      }
      Success(User(newId, email, name, None, now))
  }

  /** `signUp`: email, then password, then display name. */
  function SignUp(email: string, password: string, displayName: string, newId: string, now: string)
    : (r: Result<User, AuthError>)
    ensures r == Failure(InvalidEmail) <==> '@' !in email
    ensures r == Failure(PasswordTooShort) <==> '@' in email && |password| < MinPasswordLength
    ensures r == Failure(DisplayNameTooShort) <==>
      '@' in email && |password| >= MinPasswordLength && |displayName| < MinDisplayNameLength
    ensures r.Success? ==> r.value == User(newId, email, displayName, None, now)
  {
    if '@' !in email then Failure(InvalidEmail)
    else if |password| < MinPasswordLength then Failure(PasswordTooShort)
    else if |displayName| < MinDisplayNameLength then Failure(DisplayNameTooShort)
    else Success(User(newId, email, displayName, None, now))
  }

  /** A `Partial<User>`: `Some` for each field supplied. */
  datatype ProfileUpdate = ProfileUpdate(
    id: Option<string>,
    email: Option<string>,
    displayName: Option<string>,
    photoURL: Option<string>,
    createdAt: Option<string>)

  function Pick<T>(supplied: Option<T>, current: T): T {
    if supplied.Some? then supplied.value else current
  }

  /** `updateProfile`: `{ ...user, ...data }` when signed in, nothing otherwise. */
  function UpdateProfile(user: Option<User>, data: ProfileUpdate): (r: Option<User>)
    ensures user.None? <==> r.None?
    ensures r.Some? ==>
      && (data.id.Some? ==> r.value.id == data.id.value)
      && (data.id.None? ==> r.value.id == user.value.id)
      && (data.email.Some? ==> r.value.email == data.email.value)
      && (data.email.None? ==> r.value.email == user.value.email)
      && (data.displayName.Some? ==> r.value.displayName == data.displayName.value)
      && (data.displayName.None? ==> r.value.displayName == user.value.displayName)
      && (data.photoURL.Some? ==> r.value.photoURL == data.photoURL)
      && (data.photoURL.None? ==> r.value.photoURL == user.value.photoURL)
      && (data.createdAt.Some? ==> r.value.createdAt == data.createdAt.value)
      && (data.createdAt.None? ==> r.value.createdAt == user.value.createdAt)
  {
    match user
    case None => None
    case Some(u) =>
      Some(User(
        Pick(data.id, u.id),
        Pick(data.email, u.email),
        Pick(data.displayName, u.displayName),
        if data.photoURL.Some? then data.photoURL else u.photoURL,
        Pick(data.createdAt, u.createdAt)))
  }

  /** Saving the same form twice is the same as saving it once. */
  lemma UpdateProfileIdempotent(user: Option<User>, data: ProfileUpdate)
    ensures UpdateProfile(UpdateProfile(user, data), data) == UpdateProfile(user, data)
  {
  }
}
