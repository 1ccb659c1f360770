/**
 * The older user-service constructor, entity.NewUser, and its password hashing.
 *
 * Its checks call the validators as if they returned a boolean; a check here
 * fails exactly when the validator returns an error. bcrypt is a function
 * parameter; the avatar selector's result and the fresh id and clock reading
 * are parameters.
 */
module EntityUser {
  import opened Common
  import opened UserErrors
  import GoErrors
  import UserDto
  import UserValidation
  import Avatar

  /** bcrypt.MinCost, bcrypt.MaxCost, bcrypt.DefaultCost */
  const MinCost := 4
  const MaxCost := 31
  const DefaultCost := 10

  const ConsentRequired := "consent to the processing of personal data is required"
  const IncorrectEmail := "incorrect email"
  const IncorrectUsername := "username must be alphanumeric and between 3 and 30 characters long"
  const PasswordsDiffer := "passwords do not match"
  const PasswordTooShortText := "password must be at least 6 characters long"

  /** The cost hashPassword hands to bcrypt. */
  function ClampCost(cost: int): (c: int)
    ensures MinCost <= c <= MaxCost
    ensures MinCost <= cost <= MaxCost ==> c == cost
    ensures !(MinCost <= cost <= MaxCost) ==> c == DefaultCost
  {
    if cost < MinCost || cost > MaxCost then DefaultCost else cost
  }

  /** bcrypt.GenerateFromPassword as a function of the password and the cost. */
  type Bcrypt = (string, int) -> Result<string, string>

  /** hashPassword */
  function HashPassword(password: string, cost: int, bcrypt: Bcrypt): Result<string, string>
  {
    bcrypt(password, ClampCost(cost))
  }

  /** Clamping is idempotent: hashing at a clamped cost uses that cost. */
  lemma HashPasswordClampsOnce(password: string, cost: int, bcrypt: Bcrypt)
    ensures HashPassword(password, ClampCost(cost), bcrypt) == HashPassword(password, cost, bcrypt)
    ensures HashPassword(password, 0, bcrypt) == bcrypt(password, DefaultCost)
  {
  }

  /** The five checks in their order; None when all pass. */
  function FirstFailedCheck(username: string, email: string, password: string, confirmPassword: string, consent: bool): (r: Option<string>)
    ensures r.None? <==>
      consent && UserValidation.IsEmail(email) && UserValidation.ValidateUsername(username).None?
      && password == confirmPassword && ByteLen(password) >= UserValidation.MinPasswordLength
    ensures !consent ==> r == Some(ConsentRequired)
    ensures consent && !UserValidation.IsEmail(email) ==> r == Some(IncorrectEmail)
    ensures consent && UserValidation.IsEmail(email) && UserValidation.ValidateUsername(username).Some? ==>
      r == Some(IncorrectUsername)
    ensures consent && UserValidation.IsEmail(email) && UserValidation.ValidateUsername(username).None?
            && password != confirmPassword ==>
      r == Some(PasswordsDiffer)
    ensures consent && UserValidation.IsEmail(email) && UserValidation.ValidateUsername(username).None?
            && password == confirmPassword && ByteLen(password) < UserValidation.MinPasswordLength ==>
      r == Some(PasswordTooShortText)
    ensures r == Some(PasswordsDiffer) ==>
      password != confirmPassword && UserValidation.IsEmail(email) && UserValidation.ValidateUsername(username).None?
  {
    if !consent then Some(ConsentRequired)
    else if UserValidation.ValidateEmail(email).Some? then Some(IncorrectEmail)
    else if UserValidation.ValidateUsername(username).Some? then Some(IncorrectUsername)
    else if password != confirmPassword then Some(PasswordsDiffer)
    else if UserValidation.ValidatePassword(password).Some? then Some(PasswordTooShortText)
    else None
  }

  /**
   * NewUser: the checks, then hashing at the default cost, then the avatar
   * (whose failure is returned, with no default), then the record.
   */
  function NewUser(username: string, email: string, password: string, confirmPassword: string, consent: bool,
                   bcrypt: Bcrypt, selectedAvatar: Result<string, string>, newId: Uuid, now: Instant): (r: Result<UserDto.User, Error>)
    ensures FirstFailedCheck(username, email, password, confirmPassword, consent).Some? ==>
      r == Failure(GoErrors.Opaque(FirstFailedCheck(username, email, password, confirmPassword, consent).value))
    ensures r.Success? <==>
      FirstFailedCheck(username, email, password, confirmPassword, consent).None?
      && bcrypt(password, DefaultCost).Success? && selectedAvatar.Success?
    // bcrypt's error and the avatar selector's error are returned as they came
    ensures FirstFailedCheck(username, email, password, confirmPassword, consent).None?
            && bcrypt(password, DefaultCost).Failure? ==>
      r == Failure(GoErrors.Opaque(bcrypt(password, DefaultCost).error))
    ensures && FirstFailedCheck(username, email, password, confirmPassword, consent).None?
            && bcrypt(password, DefaultCost).Success? && selectedAvatar.Failure?
            ==> r == Failure(GoErrors.Opaque(selectedAvatar.error))
    ensures r.Success? ==>
      && r.value.id == newId
      && r.value.username == username && r.value.email == email && r.value.consentToDataProcessing == consent
      && r.value.passwordHash == bcrypt(password, DefaultCost).value
      && r.value.avatarUrl == Avatar.GetAvatarPath(selectedAvatar.value)
      && r.value.createdAt == r.value.updatedAt == now
  {
    var failed := FirstFailedCheck(username, email, password, confirmPassword, consent);
    if failed.Some? then Failure(GoErrors.Opaque(failed.value))
    else
      var hashed := HashPassword(password, DefaultCost, bcrypt);
      if hashed.Failure? then Failure(GoErrors.Opaque(hashed.error))
      else if selectedAvatar.Failure? then Failure(GoErrors.Opaque(selectedAvatar.error))
      else
        var avatarUrl := Avatar.GetAvatarPath(selectedAvatar.value);
        Success(UserDto.User(newId, username, email, hashed.value, avatarUrl, consent, now, now))
  }

  /**
   * Its check errors are plain texts, and bcrypt's and the avatar selector's
   * errors come back as they were: none of the service's own sentinels is
   * found in any of them.
   */
  lemma NewUserErrorsAreOpaque(username: string, email: string, password: string, confirmPassword: string, consent: bool,
                               bcrypt: Bcrypt, selectedAvatar: Result<string, string>, newId: Uuid, now: Instant, k: Kind)
    requires NewUser(username, email, password, confirmPassword, consent, bcrypt, selectedAvatar, newId, now).Failure?
    ensures !GoErrors.Is(NewUser(username, email, password, confirmPassword, consent, bcrypt, selectedAvatar, newId, now).error, k)
  {
  }

  /** Mismatched passwords are reported before a too-short password. */
  lemma MismatchBeforeLength(username: string, email: string, password: string, confirmPassword: string)
    requires UserValidation.IsEmail(email) && UserValidation.ValidateUsername(username).None?
    requires password != confirmPassword
    ensures FirstFailedCheck(username, email, password, confirmPassword, true) == Some(PasswordsDiffer)
  {
  }
}
