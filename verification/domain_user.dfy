/**
 * The user-service domain user: an immutable record built by a validating
 * constructor, and its conversions to and from the repository record.
 *
 * Config's generator functions are replaced by the values they return at the
 * call: the fresh id, the clock reading and the avatar selector's result.
 */
module DomainUser {
  import opened Common
  import opened UserErrors
  import GoErrors
  import UserDto
  import UserValidation
  import Avatar

  /** The unexported user struct; its getters are the fields. */
  datatype User = User(
    id: Uuid,
    username: string,
    email: string,
    passwordHash: string,
    avatarUrl: string,
    consentToDataProcessing: bool,
    createdAt: Instant,
    updatedAt: Instant)

  datatype Config = Config(
    bcryptCost: int,
    defaultAvatar: string,
    newId: Uuid,
    now: Instant,
    selectedAvatar: Result<string, string>)

  const DefaultBcryptCost := 10
  const DefaultAvatar := "person-1.png"

  /** DefaultConfig, given what uuid.New, time.Now and SelectRandomAvatar return. */
  function DefaultConfig(newId: Uuid, now: Instant, selectedAvatar: Result<string, string>): (cfg: Config)
    ensures cfg.bcryptCost == DefaultBcryptCost && cfg.defaultAvatar == DefaultAvatar
    ensures cfg.newId == newId && cfg.now == now && cfg.selectedAvatar == selectedAvatar
  {
    Config(DefaultBcryptCost, DefaultAvatar, newId, now, selectedAvatar)
  }

  /** The avatar file name NewUser uses: the selected one, or the default when selection fails. */
  function AvatarName(cfg: Config): string
  {
    if cfg.selectedAvatar.Success? then cfg.selectedAvatar.value else cfg.defaultAvatar
  }

  /** NewUser: consent, then email, then username; then the record. */
  function NewUser(username: string, email: string, passwordHash: string, consent: bool, cfg: Config): (r: Result<User, Error>)
    ensures !consent ==> r == Failure(GoErrors.Sentinel(NoConsent))
    ensures consent && UserValidation.ValidateEmail(email).Some? ==>
      r == Failure(WrapValidation("email", UserValidation.ValidateEmail(email).value))
    ensures consent && UserValidation.ValidateEmail(email).None? && UserValidation.ValidateUsername(username).Some? ==>
      r == Failure(WrapValidation("username", UserValidation.ValidateUsername(username).value))
    ensures r.Success? <==>
      consent && UserValidation.ValidateEmail(email).None? && UserValidation.ValidateUsername(username).None?
    ensures r.Success? ==>
      && r.value.id == cfg.newId
      && r.value.createdAt == r.value.updatedAt == cfg.now
      && r.value.username == username && r.value.email == email
      && r.value.passwordHash == passwordHash && r.value.consentToDataProcessing
      && r.value.avatarUrl == Avatar.GetAvatarPath(AvatarName(cfg))
  {
    if !consent then Failure(GoErrors.Sentinel(NoConsent))
    else if UserValidation.ValidateEmail(email).Some? then
      Failure(WrapValidation("email", UserValidation.ValidateEmail(email).value))
    else if UserValidation.ValidateUsername(username).Some? then
      Failure(WrapValidation("username", UserValidation.ValidateUsername(username).value))
    else
      var avatarUrl := Avatar.GetAvatarPath(AvatarName(cfg));
      Success(User(cfg.newId, username, email, passwordHash, avatarUrl, consent, cfg.now, cfg.now))
  }

  /**
   * A failure carries exactly one validation sentinel, and it names the first
   * check that failed.
   */
  lemma NewUserFailureKind(username: string, email: string, passwordHash: string, consent: bool, cfg: Config)
    requires NewUser(username, email, passwordHash, consent, cfg).Failure?
    ensures var e := NewUser(username, email, passwordHash, consent, cfg).error;
      && (GoErrors.Is(e, NoConsent) <==> !consent)
      && (GoErrors.Is(e, InvalidEmail) <==> consent && !UserValidation.IsEmail(email))
      && (GoErrors.Is(e, InvalidUsernameLength) || GoErrors.Is(e, UsernameNotAlphanumeric) <==>
            consent && UserValidation.IsEmail(email))
  {
  }

  /** A built user has an email of the pattern and a username of 3 to 30 word characters. */
  lemma NewUserFieldsAreValid(username: string, email: string, passwordHash: string, consent: bool, cfg: Config)
    requires NewUser(username, email, passwordHash, consent, cfg).Success?
    ensures UserValidation.MatchesEmailPattern(email)
    ensures 3 <= |username| <= 30 && All(username, UserValidation.IsWordChar)
  {
    UserValidation.EmailRecognizerMatchesPattern(email);
  }

  /** The avatar fallback: the selected file when selection succeeds, the configured default otherwise. */
  lemma AvatarFallback(username: string, email: string, passwordHash: string, cfg: Config)
    requires NewUser(username, email, passwordHash, true, cfg).Success?
    ensures cfg.selectedAvatar.Failure? ==>
      NewUser(username, email, passwordHash, true, cfg).value.avatarUrl == "assets/avatars/" + cfg.defaultAvatar
    ensures cfg.selectedAvatar.Success? ==>
      NewUser(username, email, passwordHash, true, cfg).value.avatarUrl == "assets/avatars/" + cfg.selectedAvatar.value
  {
  }

  /** "testuser" is a valid username. */
  lemma TestUsernameIsValid()
    ensures UserValidation.ValidateUsername("testuser").None?
  {
    var u := "testuser";
    assert forall i :: 0 <= i < |u| ==> u[i] as int < 0x80;
    assert ByteLen(u) == 8;
    assert All(u, UserValidation.IsWordChar);
  }

  /** The failing cases of the constructor's table test, each with the sentinel the test expects. */
  lemma NewUserTestErrors(passwordHash: string, cfg: Config)
    ensures NewUser("testuser", "test@example.com", passwordHash, false, cfg) == Failure(GoErrors.Sentinel(NoConsent))
    ensures NewUser("testuser", "invalid-email", passwordHash, true, cfg)
            == Failure(WrapValidation("email", GoErrors.Sentinel(InvalidEmail)))
    ensures NewUser("ab", "test@example.com", passwordHash, true, cfg)
            == Failure(WrapValidation("username", GoErrors.Sentinel(InvalidUsernameLength)))
    ensures NewUser("test#user", "test@example.com", passwordHash, true, cfg)
            == Failure(WrapValidation("username", GoErrors.Sentinel(UsernameNotAlphanumeric)))
  {
    UserValidation.RejectedExamples();
    UserValidation.AcceptedEmailExample();
  }

  /** The succeeding case of the constructor's table test. */
  lemma NewUserTestSuccess(passwordHash: string, cfg: Config)
    ensures NewUser("testuser", "test@example.com", passwordHash, true, cfg).Success?
  {
    UserValidation.AcceptedEmailExample();
    TestUsernameIsValid();
  }

  /**
   * The table test's PasswordsMismatch and WeakPassword cases: NewUser is given
   * only the hash of `password`, never `confirmPassword`, so both inputs build
   * a user instead of failing as the test expects.
   */
  lemma NewUserTestPasswordCases(mismatchHash: string, weakHash: string, cfg: Config)
    ensures NewUser("testuser", "test@example.com", mismatchHash, true, cfg).Success?
    ensures NewUser("testuser", "test@example.com", weakHash, true, cfg).Success?
  {
    NewUserTestSuccess(mismatchHash, cfg);
    NewUserTestSuccess(weakHash, cfg);
  }

  /** NewUser checks no password: none of its failures is ErrPasswordsMismatch or ErrPasswordTooShort. */
  lemma NewUserReportsNoPasswordError(username: string, email: string, passwordHash: string, consent: bool, cfg: Config)
    requires NewUser(username, email, passwordHash, consent, cfg).Failure?
    ensures var e := NewUser(username, email, passwordHash, consent, cfg).error;
      !GoErrors.Is(e, PasswordsMismatch) && !GoErrors.Is(e, PasswordTooShort)
  {
  }

  function ToDto(u: User): UserDto.User
  {
    UserDto.User(u.id, u.username, u.email, u.passwordHash, u.avatarUrl, u.consentToDataProcessing, u.createdAt, u.updatedAt)
  }

  function FromDto(d: UserDto.User): User
  {
    User(d.id, d.username, d.email, d.passwordHash, d.avatarUrl, d.consentToDataProcessing, d.createdAt, d.updatedAt)
  }

  /** ToDTO(NewUserFromDTO(d)) is d, field for field. */
  lemma DtoRoundTrip(d: UserDto.User)
    ensures ToDto(FromDto(d)) == d
  {
  }

  /** NewUserFromDTO(u.ToDTO()) is u. */
  lemma UserRoundTrip(u: User)
    ensures FromDto(ToDto(u)) == u
  {
  }
}
