/**
 * UserUsecase: guards, then ordered calls to the user repository and the auth
 * client. The object's state is the sequence of calls it has made.
 *
 * bcrypt's hash of the password, and what uuid.New, time.Now and the avatar
 * selector return inside domain.DefaultConfig, are parameters of RegisterUser.
 */
module UserUsecase {
  import opened Common
  import opened UserErrors
  import GoErrors
  import UserDto
  import UserValidation
  import DomainUser
  import opened UserFlows

  /** Everything RegisterUser checks and builds before its first call. */
  function PrepareRegistration(username: string, email: string, password: string, confirmPassword: string, consent: bool,
                               hashed: Result<string, string>, cfg: DomainUser.Config): (r: Result<DomainUser.User, Error>)
    // the cheap guards come first and in this order
    ensures username == "" || email == "" || password == "" ==> r == Failure(InvalidInputError)
    ensures username != "" && email != "" && password != "" && password != confirmPassword ==>
      r == Failure(GoErrors.Sentinel(PasswordsMismatch))
    ensures username != "" && email != "" && password != "" && password == confirmPassword
            && UserValidation.ValidatePassword(password).Some? ==>
      r == Failure(WrapValidation("password", GoErrors.Sentinel(PasswordTooShort)))
    // a hashing failure is reported as ErrHashingPassword under the "password" field
    ensures username != "" && email != "" && password != "" && password == confirmPassword
            && UserValidation.ValidatePassword(password).None? && hashed.Failure? ==>
      r == Failure(WrapValidation("password", GoErrors.Sentinel(HashingPassword)))
    // past the guards and hashing, domain.NewUser's outcome is returned as it came, failure included
    ensures username != "" && email != "" && password != "" && password == confirmPassword
            && UserValidation.ValidatePassword(password).None? && hashed.Success? ==>
      r == DomainUser.NewUser(username, email, hashed.value, consent, cfg)
    ensures r.Success? <==>
      && username != "" && email != "" && password != "" && password == confirmPassword
      && UserValidation.ValidatePassword(password).None? && hashed.Success?
      && DomainUser.NewUser(username, email, hashed.value, consent, cfg).Success?
  {
    if username == "" || email == "" || password == "" then Failure(InvalidInputError)
    else if password != confirmPassword then Failure(GoErrors.Sentinel(PasswordsMismatch))
    else if UserValidation.ValidatePassword(password).Some? then
      Failure(WrapValidation("password", UserValidation.ValidatePassword(password).value))
    else if hashed.Failure? then Failure(WrapValidation("password", GoErrors.Sentinel(HashingPassword)))
    else DomainUser.NewUser(username, email, hashed.value, consent, cfg)
  }

  /** RegisterUser, given the outcome of its preparation. */
  function Register(prepared: Result<DomainUser.User, Error>, replies: Replies): (run: Run<Session>)
    // nothing is called unless every check and the construction succeed
    ensures prepared.Failure? ==> run == Run(Failure(prepared.error), [])
    ensures prepared.Success? ==> 1 <= |run.calls| <= 2 && run.calls[0] == CreateUser(DomainUser.ToDto(prepared.value))
    // a failed CreateUser is returned as it came, and Authenticate is not called
    ensures |run.calls| == 1 ==>
      run.calls[0].CreateUser? && replies.createUser(run.calls[0].user).Some?
      && run.result == Failure(replies.createUser(run.calls[0].user).value)
    // Authenticate follows a successful CreateUser, for the stored user's id
    ensures |run.calls| == 2 ==>
      && run.calls[0].CreateUser? && replies.createUser(run.calls[0].user).None?
      && run.calls[1] == Authenticate(run.calls[0].user.id)
    ensures run.result.Success? ==>
      |run.calls| == 2 && replies.authenticate(run.calls[1].id).Success?
      && run.result.value == Session(run.calls[1].id, replies.authenticate(run.calls[1].id).value)
    // an auth failure is wrapped with %w
    ensures |run.calls| == 2 && run.result.Failure? ==>
      replies.authenticate(run.calls[1].id).Failure?
      && run.result.error == GoErrors.Wrap("authentication error", replies.authenticate(run.calls[1].id).error)
  {
    if prepared.Failure? then Run(Failure(prepared.error), [])
    else
      var dto := DomainUser.ToDto(prepared.value);
      var created := replies.createUser(dto);
      if created.Some? then Run(Failure(created.value), [CreateUser(dto)])
      else
        var tokens := replies.authenticate(dto.id);
        if tokens.Failure? then
          Run(Failure(GoErrors.Wrap("authentication error", tokens.error)), [CreateUser(dto), Authenticate(dto.id)])
        else Run(Success(Session(dto.id, tokens.value)), [CreateUser(dto), Authenticate(dto.id)])
  }

  /** RegisterUser from its inputs. */
  function RegisterRun(username: string, email: string, password: string, confirmPassword: string, consent: bool,
                       hashed: Result<string, string>, cfg: DomainUser.Config, replies: Replies): Run<Session>
  {
    Register(PrepareRegistration(username, email, password, confirmPassword, consent, hashed, cfg), replies)
  }

  /** The id handed back is the generated one. */
  lemma RegisterReturnsGeneratedId(username: string, email: string, password: string, confirmPassword: string, consent: bool,
                                   hashed: Result<string, string>, cfg: DomainUser.Config, replies: Replies)
    requires RegisterRun(username, email, password, confirmPassword, consent, hashed, cfg, replies).result.Success?
    ensures RegisterRun(username, email, password, confirmPassword, consent, hashed, cfg, replies).result.value.userId == cfg.newId
  {
  }

  /** Without consent nothing is stored, whatever the other inputs. */
  lemma NoConsentStoresNothing(username: string, email: string, password: string, confirmPassword: string,
                               hashed: Result<string, string>, cfg: DomainUser.Config, replies: Replies)
    ensures forall c :: c in RegisterRun(username, email, password, confirmPassword, false, hashed, cfg, replies).calls ==> !c.CreateUser?
  {
  }

  /** A stored user passed every validator. */
  lemma StoredUserIsValid(username: string, email: string, password: string, confirmPassword: string, consent: bool,
                          hashed: Result<string, string>, cfg: DomainUser.Config, replies: Replies)
    requires RegisterRun(username, email, password, confirmPassword, consent, hashed, cfg, replies).calls != []
    ensures consent && password == confirmPassword
    ensures UserValidation.IsEmail(email) && UserValidation.ValidateUsername(username).None?
    ensures UserValidation.ValidatePassword(password).None?
  {
  }

  class UserUsecase {
    /** The calls made so far, oldest first. */
    var calls: seq<Call>

    constructor ()
      ensures calls == []
    {
      calls := [];
    }

    method RegisterUser(username: string, email: string, password: string, confirmPassword: string, consent: bool,
                        hashed: Result<string, string>, newId: Uuid, now: Instant, selectedAvatar: Result<string, string>,
                        replies: Replies) returns (r: Result<Session, Error>)
      modifies this
      ensures var run := RegisterRun(username, email, password, confirmPassword, consent, hashed,
                                     DomainUser.DefaultConfig(newId, now, selectedAvatar), replies);
        r == run.result && calls == old(calls) + run.calls
    {
      if username == "" || email == "" || password == "" {
        return Failure(InvalidInputError);
      }
      if password != confirmPassword {
        return Failure(GoErrors.Sentinel(PasswordsMismatch));
      }
      var invalid := UserValidation.ValidatePassword(password);
      if invalid.Some? {
        return Failure(WrapValidation("password", invalid.value));
      }
      if hashed.Failure? {
        return Failure(WrapValidation("password", GoErrors.Sentinel(HashingPassword)));
      }
      var cfg := DomainUser.DefaultConfig(newId, now, selectedAvatar);
      var user := DomainUser.NewUser(username, email, hashed.value, consent, cfg);
      if user.Failure? {
        return Failure(user.error);
      }
      var dto := DomainUser.ToDto(user.value);
      calls := calls + [CreateUser(dto)];
      var created := replies.createUser(dto);
      if created.Some? {
        return Failure(created.value);
      }
      calls := calls + [Authenticate(user.value.id)];
      var tokens := replies.authenticate(user.value.id);
      if tokens.Failure? {
        return Failure(GoErrors.Wrap("authentication error", tokens.error));
      }
      r := Success(Session(user.value.id, tokens.value));
    }

    method LoginUser(loginIdentifier: string, password: string, isEmail: string -> bool,
                     passwordMatches: (string, string) -> bool, replies: Replies) returns (r: Result<Session, Error>)
      modifies this
      ensures var run := Login(loginIdentifier, password, isEmail, passwordMatches, replies);
        r == run.result && calls == old(calls) + run.calls
    {
      if loginIdentifier == "" || password == "" {
        return Failure(InvalidInputError);
      }
      var found: Result<UserDto.User, Error>;
      if isEmail(loginIdentifier) {
        calls := calls + [GetUserByEmail(loginIdentifier)];
        found := replies.getUserByEmail(loginIdentifier);
      } else {
        calls := calls + [GetUserByUsername(loginIdentifier)];
        found := replies.getUserByUsername(loginIdentifier);
      }
      if found.Failure? {
        if GoErrors.Is(found.error, UserNotFound) {
          return Failure(found.error);
        }
        return Failure(GoErrors.Wrap("login error", found.error));
      }
      var user := DomainUser.FromDto(found.value);
      if !passwordMatches(user.passwordHash, password) {
        return Failure(GoErrors.Sentinel(Unauthorized));
      }
      calls := calls + [Authenticate(user.id)];
      var tokens := replies.authenticate(user.id);
      if tokens.Failure? {
        return Failure(GoErrors.Flatten("authentication error", tokens.error));
      }
      r := Success(Session(user.id, tokens.value));
    }

    method ValidateToken(accessToken: string, replies: Replies) returns (r: Result<(bool, string), Error>)
      modifies this
      ensures var run := ValidateTokenRun(accessToken, replies);
        r == run.result && calls == old(calls) + run.calls
    {
      if accessToken == "" {
        return Failure(InvalidInputError);
      }
      calls := calls + [UserFlows.ValidateToken(accessToken)];
      var reply := replies.validateToken(accessToken);
      if reply.Failure? {
        return Failure(GoErrors.Flatten("token validation error", reply.error));
      }
      r := reply;
    }

    method RefreshToken(refreshToken: string, replies: Replies) returns (r: Result<TokenPair, Error>)
      modifies this
      ensures var run := RefreshTokenRun(refreshToken, replies);
        r == run.result && calls == old(calls) + run.calls
    {
      if refreshToken == "" {
        return Failure(InvalidInputError);
      }
      calls := calls + [UserFlows.RefreshToken(refreshToken)];
      var reply := replies.refreshToken(refreshToken);
      if reply.Failure? {
        return Failure(GoErrors.Flatten("refresh token error", reply.error));
      }
      r := reply;
    }

    method Logout(refreshToken: string, replies: Replies) returns (r: Result<bool, Error>)
      modifies this
      ensures var run := LogoutRun(refreshToken, replies);
        r == run.result && calls == old(calls) + run.calls
    {
      if refreshToken == "" {
        return Failure(InvalidInputError);
      }
      calls := calls + [UserFlows.Logout(refreshToken)];
      var reply := replies.logout(refreshToken);
      if reply.Failure? {
        return Failure(GoErrors.Wrap("logout error", reply.error));
      }
      r := reply;
    }

    /** GetUserByID: the record found, as a domain user. */
    method GetUserByID(userId: string, replies: Replies) returns (r: Result<DomainUser.User, Error>)
      modifies this
      ensures var run := GetUserRun(userId, replies);
        calls == old(calls) + run.calls
        && (run.result.Failure? ==> r == Failure(run.result.error))
        && (run.result.Success? ==> r == Success(DomainUser.FromDto(run.result.value)))
    {
      if userId == "" {
        return Failure(InvalidInputError);
      }
      calls := calls + [GetUserById(userId)];
      var found := replies.getUserById(userId);
      if found.Failure? {
        if GoErrors.Is(found.error, UserNotFound) {
          return Failure(found.error);
        }
        return Failure(GoErrors.Wrap("get user error", found.error));
      }
      r := Success(DomainUser.FromDto(found.value));
    }
  }
}
