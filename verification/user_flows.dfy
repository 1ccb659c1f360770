/**
 * What the user service's two orchestration layers (UserUsecase and the older
 * UserService) do with their collaborators, the user repository and the auth
 * client.
 *
 * A collaborator is seen only through its replies, given as functions of the
 * call's argument; the layers record every call they make, in order. The
 * operations that the two layers implement identically are specified here once.
 */
module UserFlows {
  import opened Common
  import opened UserErrors
  import GoErrors
  import UserDto

  datatype TokenPair = TokenPair(accessToken: string, refreshToken: string)

  /** A call to the repository or to the auth client. */
  datatype Call =
    | CreateUser(user: UserDto.User)
    | GetUserByEmail(email: string)
    | GetUserByUsername(username: string)
    | GetUserById(userId: string)
    | Authenticate(id: Uuid)
    | ValidateToken(accessToken: string)
    | RefreshToken(refreshToken: string)
    | Logout(refreshToken: string)

  /** The collaborators' replies. */
  datatype Replies = Replies(
    createUser: UserDto.User -> Option<Error>,
    getUserByEmail: string -> Result<UserDto.User, Error>,
    getUserByUsername: string -> Result<UserDto.User, Error>,
    getUserById: string -> Result<UserDto.User, Error>,
    authenticate: Uuid -> Result<TokenPair, Error>,
    validateToken: string -> Result<(bool, string), Error>,
    refreshToken: string -> Result<TokenPair, Error>,
    logout: string -> Result<bool, Error>)

  /** A signed-in user: the id and the tokens the auth service issued. */
  datatype Session = Session(userId: Uuid, tokens: TokenPair)

  /** The result of an operation together with the calls it made. */
  datatype Run<T> = Run(result: Result<T, Error>, calls: seq<Call>)

  const InvalidInputError: Error := GoErrors.Sentinel(InvalidInput)

  /** The repository error a lookup reports: ErrUserNotFound as it came, any other error wrapped with %w. */
  function LookupError(context: string, err: Error): (e: Error)
    ensures GoErrors.Is(err, UserNotFound) ==> e == err
    ensures forall k :: GoErrors.Is(e, k) == GoErrors.Is(err, k)
  {
    if GoErrors.Is(err, UserNotFound) then err else GoErrors.Wrap(context, err)
  }

  /** The lookup LoginUser makes: by email when the identifier looks like one, else by username. */
  function LoginLookup(loginIdentifier: string, isEmail: string -> bool): Call
  {
    if isEmail(loginIdentifier) then GetUserByEmail(loginIdentifier) else GetUserByUsername(loginIdentifier)
  }

  function LookupReply(call: Call, replies: Replies): Result<UserDto.User, Error>
    requires call.GetUserByEmail? || call.GetUserByUsername?
  {
    if call.GetUserByEmail? then replies.getUserByEmail(call.email) else replies.getUserByUsername(call.username)
  }

  /**
   * LoginUser in both layers. `passwordMatches(hash, password)` is bcrypt's
   * comparison; utils.IsEmail is `isEmail`.
   */
  function Login(loginIdentifier: string, password: string, isEmail: string -> bool,
                 passwordMatches: (string, string) -> bool, replies: Replies): (run: Run<Session>)
    // the guard makes no call
    ensures loginIdentifier == "" || password == "" ==> run == Run(Failure(InvalidInputError), [])
    ensures loginIdentifier != "" && password != "" ==>
      |run.calls| >= 1 && run.calls[0] == LoginLookup(loginIdentifier, isEmail) && |run.calls| <= 2
    // a failed lookup is the last call; not-found comes back unwrapped
    ensures loginIdentifier != "" && password != "" && LookupReply(LoginLookup(loginIdentifier, isEmail), replies).Failure? ==>
      run == Run(Failure(LookupError("login error", LookupReply(LoginLookup(loginIdentifier, isEmail), replies).error)),
                 [LoginLookup(loginIdentifier, isEmail)])
    // Authenticate is reached only for the found user, after the password matched
    ensures |run.calls| == 2 ==>
      var found := LookupReply(run.calls[0], replies);
      found.Success? && passwordMatches(found.value.passwordHash, password)
      && run.calls[1] == Authenticate(found.value.id)
    // a found user whose hash does not match the password gives ErrUnauthorized, with no Authenticate
    ensures loginIdentifier != "" && password != "" && LookupReply(LoginLookup(loginIdentifier, isEmail), replies).Success?
            && !passwordMatches(LookupReply(LoginLookup(loginIdentifier, isEmail), replies).value.passwordHash, password) ==>
      run == Run(Failure(GoErrors.Sentinel(Unauthorized)), [LoginLookup(loginIdentifier, isEmail)])
    // a found user whose hash matches is authenticated, and the auth reply decides the result
    ensures loginIdentifier != "" && password != "" && LookupReply(LoginLookup(loginIdentifier, isEmail), replies).Success?
            && passwordMatches(LookupReply(LoginLookup(loginIdentifier, isEmail), replies).value.passwordHash, password) ==>
      var id := LookupReply(LoginLookup(loginIdentifier, isEmail), replies).value.id;
      && run.calls == [LoginLookup(loginIdentifier, isEmail), Authenticate(id)]
      && (replies.authenticate(id).Success? ==> run.result == Success(Session(id, replies.authenticate(id).value)))
      && (replies.authenticate(id).Failure? ==>
            run.result == Failure(GoErrors.Flatten("authentication error", replies.authenticate(id).error)))
    ensures run.result == Failure(GoErrors.Sentinel(Unauthorized)) ==> |run.calls| == 1
    // success: the found user's id and the tokens the auth service issued
    ensures run.result.Success? ==>
      |run.calls| == 2 && run.calls[1].Authenticate? && run.result.value.userId == run.calls[1].id
      && replies.authenticate(run.calls[1].id) == Success(run.result.value.tokens)
  {
    if loginIdentifier == "" || password == "" then Run(Failure(InvalidInputError), [])
    else
      var lookup := LoginLookup(loginIdentifier, isEmail);
      var found := LookupReply(lookup, replies);
      if found.Failure? then Run(Failure(LookupError("login error", found.error)), [lookup])
      else if !passwordMatches(found.value.passwordHash, password) then
        Run(Failure(GoErrors.Sentinel(Unauthorized)), [lookup])
      else
        var id := found.value.id;
        var tokens := replies.authenticate(id);
        if tokens.Failure? then
          Run(Failure(GoErrors.Flatten("authentication error", tokens.error)), [lookup, Authenticate(id)])
        else
          Run(Success(Session(id, tokens.value)), [lookup, Authenticate(id)])
  }

  /** A login failure in the auth client is reported with %s: errors.Is finds no sentinel in it. */
  lemma LoginAuthFailureLosesKind(loginIdentifier: string, password: string, isEmail: string -> bool,
                                  passwordMatches: (string, string) -> bool, replies: Replies, k: Kind)
    requires |Login(loginIdentifier, password, isEmail, passwordMatches, replies).calls| == 2
    requires Login(loginIdentifier, password, isEmail, passwordMatches, replies).result.Failure?
    ensures !GoErrors.Is(Login(loginIdentifier, password, isEmail, passwordMatches, replies).result.error, k)
  {
  }

  /** ValidateToken in both layers. */
  function ValidateTokenRun(accessToken: string, replies: Replies): (run: Run<(bool, string)>)
    ensures accessToken == "" ==> run == Run(Failure(InvalidInputError), [])
    ensures accessToken != "" ==> run.calls == [ValidateToken(accessToken)]
    ensures accessToken != "" && replies.validateToken(accessToken).Success? ==>
      run.result == replies.validateToken(accessToken)
    // a client failure is flattened with %s
    ensures accessToken != "" && replies.validateToken(accessToken).Failure? ==>
      run.result.Failure? && forall k :: !GoErrors.Is(run.result.error, k)
  {
    if accessToken == "" then Run(Failure(InvalidInputError), [])
    else
      var reply := replies.validateToken(accessToken);
      if reply.Failure? then
        Run(Failure(GoErrors.Flatten("token validation error", reply.error)), [ValidateToken(accessToken)])
      else Run(reply, [ValidateToken(accessToken)])
  }

  /** RefreshToken in both layers. */
  function RefreshTokenRun(refreshToken: string, replies: Replies): (run: Run<TokenPair>)
    ensures refreshToken == "" ==> run == Run(Failure(InvalidInputError), [])
    ensures refreshToken != "" ==> run.calls == [RefreshToken(refreshToken)]
    ensures refreshToken != "" && replies.refreshToken(refreshToken).Success? ==>
      run.result == replies.refreshToken(refreshToken)
    // a client failure is flattened with %s
    ensures refreshToken != "" && replies.refreshToken(refreshToken).Failure? ==>
      run.result.Failure? && forall k :: !GoErrors.Is(run.result.error, k)
  {
    if refreshToken == "" then Run(Failure(InvalidInputError), [])
    else
      var reply := replies.refreshToken(refreshToken);
      if reply.Failure? then
        Run(Failure(GoErrors.Flatten("refresh token error", reply.error)), [RefreshToken(refreshToken)])
      else Run(reply, [RefreshToken(refreshToken)])
  }

  /** Logout in both layers. */
  function LogoutRun(refreshToken: string, replies: Replies): (run: Run<bool>)
    ensures refreshToken == "" ==> run == Run(Failure(InvalidInputError), [])
    ensures refreshToken != "" ==> run.calls == [Logout(refreshToken)]
    ensures refreshToken != "" && replies.logout(refreshToken).Success? ==>
      run.result == replies.logout(refreshToken)
    // a client failure is wrapped with %w: its sentinel stays visible
    ensures refreshToken != "" && replies.logout(refreshToken).Failure? ==>
      run.result.Failure? && forall k :: GoErrors.Is(run.result.error, k) == GoErrors.Is(replies.logout(refreshToken).error, k)
  {
    if refreshToken == "" then Run(Failure(InvalidInputError), [])
    else
      var reply := replies.logout(refreshToken);
      if reply.Failure? then
        Run(Failure(GoErrors.Wrap("logout error", reply.error)), [Logout(refreshToken)])
      else Run(reply, [Logout(refreshToken)])
  }

  /** GetUserByID in both layers (before the use case converts the record). */
  function GetUserRun(userId: string, replies: Replies): (run: Run<UserDto.User>)
    ensures userId == "" ==> run == Run(Failure(InvalidInputError), [])
    ensures userId != "" ==> run.calls == [GetUserById(userId)]
    ensures userId != "" && replies.getUserById(userId).Success? ==> run.result == replies.getUserById(userId)
    ensures userId != "" && replies.getUserById(userId).Failure? ==>
      run.result == Failure(LookupError("get user error", replies.getUserById(userId).error))
  {
    if userId == "" then Run(Failure(InvalidInputError), [])
    else
      var reply := replies.getUserById(userId);
      if reply.Failure? then Run(Failure(LookupError("get user error", reply.error)), [GetUserById(userId)])
      else Run(reply, [GetUserById(userId)])
  }
}
