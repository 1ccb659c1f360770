/**
 * The auth service's user constructor. bcrypt's result and the fresh id and
 * clock reading are parameters.
 */
module AuthUser {
  import opened Common

  datatype User = User(
    id: Uuid,
    username: string,
    email: string,
    passwordHash: string,
    consentToDataProcessing: bool,
    createdAt: Instant,
    updatedAt: Instant)

  const ConsentRequired := "consent to the processing of personal data is required"
  const PasswordTooShortText := "password must be at least 6 characters long"

  /** NewUser: consent, then a password of at least six bytes, then hashing. */
  function NewUser(username: string, email: string, password: string, consent: bool,
                   hashed: Result<string, string>, newId: Uuid, now: Instant): (r: Result<User, string>)
    ensures !consent ==> r == Failure(ConsentRequired)
    ensures consent && ByteLen(password) < 6 ==> r == Failure(PasswordTooShortText)
    ensures consent && ByteLen(password) >= 6 && hashed.Failure? ==> r == Failure(hashed.error)
    ensures r.Success? <==> consent && ByteLen(password) >= 6 && hashed.Success?
    // username and email are stored without any validation
    ensures r.Success? ==>
      r.value == User(newId, username, email, hashed.value, true, now, now)
  {
    if !consent then Failure(ConsentRequired)
    else if ByteLen(password) < 6 then Failure(PasswordTooShortText)
    else if hashed.Failure? then Failure(hashed.error)
    else Success(User(newId, username, email, hashed.value, consent, now, now))
  }

  /** Any username and email are accepted, the empty ones included. */
  lemma NoFieldValidation(password: string, hashed: Result<string, string>, newId: Uuid, now: Instant)
    requires |password| >= 6 && hashed.Success?
    ensures NewUser("", "", password, true, hashed, newId, now).Success?
  {
  }
}
