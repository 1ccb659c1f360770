/**
 * UserService, the older orchestration layer: the same guards and call
 * ordering as UserUsecase, with entity.NewUser doing the validation.
 *
 * bcrypt, and what SelectRandomAvatar, uuid.New and time.Now return inside
 * entity.NewUser, are parameters of RegisterUser.
 */
module UserService {
  import opened Common
  import opened UserErrors
  import GoErrors
  import UserDto
  import EntityUser
  import opened UserFlows

  /** RegisterUser's guard and entity.NewUser: everything before its first call. */
  function PrepareRegistration(username: string, email: string, password: string, confirmPassword: string, consent: bool,
                               bcrypt: EntityUser.Bcrypt, selectedAvatar: Result<string, string>, newId: Uuid, now: Instant)
    : (r: Result<UserDto.User, Error>)
    ensures username == "" || email == "" || password == "" ==> r == Failure(InvalidInputError)
    ensures username != "" && email != "" && password != "" ==>
      r == EntityUser.NewUser(username, email, password, confirmPassword, consent, bcrypt, selectedAvatar, newId, now)
  {
    if username == "" || email == "" || password == "" then Failure(InvalidInputError)
    else EntityUser.NewUser(username, email, password, confirmPassword, consent, bcrypt, selectedAvatar, newId, now)
  }

  /** RegisterUser, given the outcome of its preparation. */
  function Register(prepared: Result<UserDto.User, Error>, replies: Replies): (run: Run<Session>)
    // an entity.NewUser failure is returned before any CreateUser call
    ensures prepared.Failure? ==> run == Run(Failure(prepared.error), [])
    ensures prepared.Success? ==> 1 <= |run.calls| <= 2 && run.calls[0] == CreateUser(prepared.value)
    // a failed CreateUser is returned as it came, and Authenticate is not called
    ensures |run.calls| == 1 ==>
      replies.createUser(run.calls[0].user).Some?
      && run.result == Failure(replies.createUser(run.calls[0].user).value)
    // Authenticate runs only after CreateUser succeeded, for the new user's id
    ensures |run.calls| == 2 ==>
      && run.calls[0].CreateUser? && replies.createUser(run.calls[0].user).None?
      && run.calls[1] == Authenticate(run.calls[0].user.id)
    ensures run.result.Success? ==>
      |run.calls| == 2 && replies.authenticate(run.calls[1].id).Success?
      && run.result.value == Session(run.calls[1].id, replies.authenticate(run.calls[1].id).value)
    // an auth failure is wrapped with %w
    ensures |run.calls| == 2 && run.result.Failure? ==>
      replies.authenticate(run.calls[1].id).Failure?
      && run.result.error == GoErrors.Wrap("authentication error", replies.authenticate(run.calls[1].id).error)
  {
    if prepared.Failure? then Run(Failure(prepared.error), [])
    else
      var user := prepared.value;
      var created := replies.createUser(user);
      if created.Some? then Run(Failure(created.value), [CreateUser(user)])
      else
        var tokens := replies.authenticate(user.id);
        if tokens.Failure? then
          Run(Failure(GoErrors.Wrap("authentication error", tokens.error)), [CreateUser(user), Authenticate(user.id)])
        else Run(Success(Session(user.id, tokens.value)), [CreateUser(user), Authenticate(user.id)])
  }

  function RegisterRun(username: string, email: string, password: string, confirmPassword: string, consent: bool,
                       bcrypt: EntityUser.Bcrypt, selectedAvatar: Result<string, string>, newId: Uuid, now: Instant,
                       replies: Replies): Run<Session>
  {
    Register(PrepareRegistration(username, email, password, confirmPassword, consent, bcrypt, selectedAvatar, newId, now), replies)
  }

  /**
   * In this layer a registration auth failure keeps its sentinel (%w), while a
   * login auth failure loses it (%s).
   */
  lemma AuthFailureWrapping(prepared: Result<UserDto.User, Error>, loginIdentifier: string, password: string,
                            isEmail: string -> bool, passwordMatches: (string, string) -> bool, replies: Replies, k: Kind)
    requires |Register(prepared, replies).calls| == 2 && Register(prepared, replies).result.Failure?
    requires |Login(loginIdentifier, password, isEmail, passwordMatches, replies).calls| == 2
    requires Login(loginIdentifier, password, isEmail, passwordMatches, replies).result.Failure?
    requires Login(loginIdentifier, password, isEmail, passwordMatches, replies).calls[1]
             == Register(prepared, replies).calls[1]
    ensures GoErrors.Is(Register(prepared, replies).result.error, k)
            == GoErrors.Is(replies.authenticate(Register(prepared, replies).calls[1].id).error, k)
    ensures !GoErrors.Is(Login(loginIdentifier, password, isEmail, passwordMatches, replies).result.error, k)
  {
    LoginAuthFailureLosesKind(loginIdentifier, password, isEmail, passwordMatches, replies, k);
  }

  class UserService {
    /** The calls made so far, oldest first. */
    var calls: seq<Call>

    constructor ()
      ensures calls == []
    {
      calls := [];
    }

    method RegisterUser(username: string, email: string, password: string, confirmPassword: string, consent: bool,
                        bcrypt: EntityUser.Bcrypt, selectedAvatar: Result<string, string>, newId: Uuid, now: Instant,
                        replies: Replies) returns (r: Result<Session, Error>)
      modifies this
      ensures var run := RegisterRun(username, email, password, confirmPassword, consent, bcrypt, selectedAvatar, newId, now, replies);
        r == run.result && calls == old(calls) + run.calls
    {
      if username == "" || email == "" || password == "" {
        return Failure(InvalidInputError);
      }
      var user := EntityUser.NewUser(username, email, password, confirmPassword, consent, bcrypt, selectedAvatar, newId, now);
      if user.Failure? {
        return Failure(user.error);
      }
      calls := calls + [CreateUser(user.value)];
      var created := replies.createUser(user.value);
      if created.Some? {
        return Failure(created.value);
      }
      calls := calls + [Authenticate(user.value.id)];
      var tokens := replies.authenticate(user.value.id);
      if tokens.Failure? {
        return Failure(GoErrors.Wrap("authentication error", tokens.error));
      }
      r := Success(Session(user.value.id, tokens.value));
    }

    method LoginUser(loginIdentifier: string, password: string, isEmail: string -> bool,
                     passwordMatches: (string, string) -> bool, replies: Replies) returns (r: Result<Session, Error>)
      modifies this
      ensures var run := Login(loginIdentifier, password, isEmail, passwordMatches, replies);
        r == run.result && calls == old(calls) + run.calls
    {
      if loginIdentifier == "" || password == "" {
        return Failure(InvalidInputError);
      }
      var found: Result<UserDto.User, Error>;
      if isEmail(loginIdentifier) {
        calls := calls + [GetUserByEmail(loginIdentifier)];
        found := replies.getUserByEmail(loginIdentifier);
      } else {
        calls := calls + [GetUserByUsername(loginIdentifier)];
        found := replies.getUserByUsername(loginIdentifier);
      }
      if found.Failure? {
        if GoErrors.Is(found.error, UserNotFound) {
          return Failure(found.error);
        }
        return Failure(GoErrors.Wrap("login error", found.error));
      }
      if !passwordMatches(found.value.passwordHash, password) {
        return Failure(GoErrors.Sentinel(Unauthorized));
      }
      calls := calls + [Authenticate(found.value.id)];
      var tokens := replies.authenticate(found.value.id);
      if tokens.Failure? {
        return Failure(GoErrors.Flatten("authentication error", tokens.error));
      }
      r := Success(Session(found.value.id, tokens.value));
    }

    method ValidateToken(accessToken: string, replies: Replies) returns (r: Result<(bool, string), Error>)
      modifies this
      ensures var run := ValidateTokenRun(accessToken, replies);
        r == run.result && calls == old(calls) + run.calls
    {
      if accessToken == "" {
        return Failure(InvalidInputError);
      }
      calls := calls + [UserFlows.ValidateToken(accessToken)];
      var reply := replies.validateToken(accessToken);
      if reply.Failure? {
        return Failure(GoErrors.Flatten("token validation error", reply.error));
      }
      r := reply;
    }

    method RefreshToken(refreshToken: string, replies: Replies) returns (r: Result<TokenPair, Error>)
      modifies this
      ensures var run := RefreshTokenRun(refreshToken, replies);
        r == run.result && calls == old(calls) + run.calls
    {
      if refreshToken == "" {
        return Failure(InvalidInputError);
      }
      calls := calls + [UserFlows.RefreshToken(refreshToken)];
      var reply := replies.refreshToken(refreshToken);
      if reply.Failure? {
        return Failure(GoErrors.Flatten("refresh token error", reply.error));
      }
      r := reply;
    }

    method Logout(refreshToken: string, replies: Replies) returns (r: Result<bool, Error>)
      modifies this
      ensures var run := LogoutRun(refreshToken, replies);
        r == run.result && calls == old(calls) + run.calls
    {
      if refreshToken == "" {
        return Failure(InvalidInputError);
      }
      calls := calls + [UserFlows.Logout(refreshToken)];
      var reply := replies.logout(refreshToken);
      if reply.Failure? {
        return Failure(GoErrors.Wrap("logout error", reply.error));
      }
      r := reply;
    }

    method GetUserByID(userId: string, replies: Replies) returns (r: Result<UserDto.User, Error>)
      modifies this
      ensures var run := GetUserRun(userId, replies);
        r == run.result && calls == old(calls) + run.calls
    {
      if userId == "" {
        return Failure(InvalidInputError);
      }
      calls := calls + [GetUserById(userId)];
      var found := replies.getUserById(userId);
      if found.Failure? {
        if GoErrors.Is(found.error, UserNotFound) {
          return Failure(found.error);
        }
        return Failure(GoErrors.Wrap("get user error", found.error));
      }
      r := found;
    }
  }
}
