# Streaming platform core, modelled in Dafny

This project models the core of the Go microservices of the streaming platform
and proves properties of that model.

- **Auth service**
  - The JWT manager mints an access/refresh pair and validates tokens.
  - The refresh-token store and its four SQL statements.
  - The token service, which issues, rotates, validates and revokes tokens.
  - The gRPC handler, which shapes responses and classifies errors.
- **User service**
  - The field validators, with hand-written recognizers for the two regular expressions.
  - Avatar selection.
  - The domain user and the older entity user, each with its constructor.
  - The two orchestration layers (`UserUsecase` and the older `UserService`). Both guard their inputs and then call the user repository and the auth client in a fixed order.
  - The auth service's own user constructor.
- **Streaming service**
  - The `Stream` entity and its three-state status.
  - The FFmpeg process table.
  - `StreamService`, which sequences the stream record, the profile lookup and FFmpeg.
- **Chat service**
  - The chat message entity and its validity check.

The model follows the source's own form:

- Pure code becomes datatypes, functions and lemmas.
- Objects whose fields change become classes:
  - `TokenRepository.Repository`, `AuthService.AuthService`;
  - `UserUsecase.UserUsecase`, `UserService.UserService`;
  - `StreamEntity.Stream`, `FfmpegService.FFmpegService`, `StreamService.StreamService`.
- Every class method is proved equal to a specification function of the state before the call. The specification function's own contracts and lemmas state the source's promises.
- The avatar filter is a loop in the source. It stays a `while` loop with an invariant over the filtered prefix.

Things the services get from outside are parameters:

- clock readings (several readings within one call are one instant, as listed under "Left out"), fresh UUIDs and `uuid.Parse` / `UUID.String`;
- bcrypt, JWT signing and parsing, and `os.ReadDir`;
- `rand.Intn`, and `utils.IsEmail`;
- the replies of the user repository and the auth client;
- every database driver fault, and the FFmpeg launch and kill faults.

Go errors are a small datatype:

- `Sentinel` for package-level `errors.New` values;
- `Wrap` for `fmt.Errorf("…: %w")`;
- `Flatten` for `fmt.Errorf("…: %s")`, which cuts the chain;
- `Opaque` for anything else.

On this datatype, `GoErrors.Is` is `errors.Is`. Times are integer nanoseconds, and UUIDs are naturals with 0 as `uuid.Nil`. Go's `len` on a string is the UTF-8 byte count (`Common.ByteLen`).

Where the code and its surrounding description disagree, the model follows the code:

- `services/user-service/internal/entity/user.go` calls the validators as if they returned `bool`. There, a check fails exactly when the validator returns an error.
- `services/auth-service/internal/service/auth_service.go` passes a context to JWT manager methods that take none. The calls are modelled as the manager defines them.
- The stream repository writes and reads only `id`, `title`, `user_id`, `status`, `created_at` and `updated_at`. Any other column of a record read back is Go's zero value. `StopStream` sets `EndTime`, but `UpdateStream` never writes it (`StreamService.EndTimeIsNotPersisted`).
- `StopStream` stops FFmpeg under the id text it was given, while `StartStream` launched it under the canonical `UUID.String()` text. Any other spelling that `uuid.Parse` accepts marks the record OFFLINE but leaves the process running (`StreamService.NonCanonicalStopLeavesProcess`).
- The domain constructor's table test expects ErrPasswordsMismatch and ErrPasswordTooShort for two inputs. Its helper hands `domain.NewUser` only the hash of `password`, and the constructor checks no password, so both inputs build a user (`DomainUser.NewUserTestPasswordCases`).
- The auth service's ValidateToken maps the text "token is expired" to `ErrTokenExpired`. The JWT manager never produces that text, so an expired access token reaches clients as `TOKEN_INVALID` (`AuthHandler.ExpiredAccessTokenReportsInvalid`).

## Model

| member | source | states |
|---|---|---|
| Common.ByteLen | services/user-service/internal/validation/user_validation.go:31 | Go's `len` of a string counts UTF-8 bytes: at least one per character, exactly one per ASCII character |
| Common.ByteLenEmpty | services/chat-service/internal/entity/message.go:34 | a string has zero bytes exactly when it is empty |
| GoErrors.IsIffRoot | services/auth-service/internal/transport/grpc/handler.go:127-148 | `errors.Is(e, sentinel)` holds exactly when that sentinel is at the end of e's `%w` chain |
| GoErrors.IsUnique | services/auth-service/internal/transport/grpc/handler.go:127-148 | an error matches at most one sentinel, so the order of the switch's cases cannot change the result |
| GoErrors.WrapKeepsIs | services/user-service/internal/usecase/user.go:91-94 | wrapping with `%w` keeps what `errors.Is` finds; formatting with `%s` loses it |
| JwtManager.NumericDate | services/auth-service/internal/token/jwt_manager.go:37 | the `exp` claim is the expiry truncated to a whole second: at most one second earlier, never later |
| JwtManager.TruncSeconds | services/auth-service/internal/token/jwt_manager.go:68 | `expiresIn` is the whole seconds of the access duration, truncated toward zero for either sign |
| JwtManager.AccessClaims | services/auth-service/internal/token/jwt_manager.go:34-41 | the access claims carry the user and the first token id, and expire within the second before now + AccessTokenDuration |
| JwtManager.RefreshClaims | services/auth-service/internal/token/jwt_manager.go:48-55 | the refresh claims carry the same user and the next token id, and expire within the second before now + RefreshTokenDuration |
| JwtManager.GenerateTokens | services/auth-service/internal/token/jwt_manager.go:33-71 | a failed access signature stops before the refresh token is signed; on error every other result is its zero value; on success the tokens are the two signatures, expiresAt is the access expiry and expiresIn its whole seconds |
| JwtManager.ValidateToken | services/auth-service/internal/token/jwt_manager.go:73-96 | succeeds exactly when the parse is valid and has the expected claims, and returns those claims; otherwise "invalid token" or "incorrect data in the token", never "token is expired" |
| JwtManager.PairSharesUserDiffersInId | services/auth-service/internal/token/jwt_manager.go:35-55 | both tokens of a pair carry the same user and different token ids |
| JwtManager.GeneratedAccessTokenValidates | services/auth-service/internal/token/jwt_manager.go:33-96 | if signing round-trips, a minted access token validates to its own claims, for its user, until its truncated expiry |
| JwtManager.GeneratedRefreshTokenValidates | services/auth-service/internal/token/jwt_manager.go:48-96 | if signing round-trips, a minted refresh token validates to its claims until its own expiry |
| TokenRepository.Insert | services/auth-service/internal/repository/token_repository.go:25-37 | INSERT … ON CONFLICT (token) DO NOTHING: an existing token leaves the table as it was; otherwise exactly one new row, unrevoked, with the record's user, expiry and creation time; no row changes |
| TokenRepository.Lookup | services/auth-service/internal/repository/token_repository.go:39-55 | a driver fault is returned as is; ErrTokenNotFound exactly when no row has the token; otherwise the row's fields, unchanged |
| TokenRepository.Revoke | services/auth-service/internal/repository/token_repository.go:63-66 | the UPDATE sets revoked on that row only; no row appears or disappears |
| TokenRepository.Sweep | services/auth-service/internal/repository/token_repository.go:80-88 | keeps exactly the rows whose expires_at is not before now, unchanged |
| TokenRepository.Save | services/auth-service/internal/repository/token_repository.go:25-37 | fails exactly on a driver fault, and then changes nothing; otherwise inserts as above and draws one serial id, even when the conflict discards the row |
| TokenRepository.RevokeOutcome | services/auth-service/internal/repository/token_repository.go:57-78 | succeeds exactly when the token has a row and the transaction does not fail; a row that is already revoked matches again; zero rows affected gives ErrTokenNotFound; any failure leaves the table unchanged |
| TokenRepository.SweepOutcome | services/auth-service/internal/repository/token_repository.go:80-88 | fails exactly on a driver fault, leaving the table; otherwise deletes the expired rows |
| TokenRepository.SweepIdempotent | services/auth-service/internal/repository/token_repository.go:81 | a second sweep at the same instant deletes nothing |
| TokenRepository.SweepIgnoresRevoked | services/auth-service/internal/repository/token_repository.go:81 | the sweep keeps a row exactly when it has not expired, revoked or not |
| TokenRepository.EvolvesTransitive | services/auth-service/internal/repository/token_repository.go:25-88 | across any sequence of statements a surviving row only ever becomes revoked, never unrevoked |
| TokenRepository.RevokeIdempotent | services/auth-service/internal/repository/token_repository.go:64 | revoking twice is revoking once |
| TokenRepository.Repository.constructor | services/auth-service/internal/repository/token_repository.go:21-23 | an empty table with the serial sequence at 1 |
| TokenRepository.Repository.SaveRefreshToken | services/auth-service/internal/repository/token_repository.go:25-37 | error, table and id sequence are those of `Save` |
| TokenRepository.Repository.GetRefreshToken | services/auth-service/internal/repository/token_repository.go:39-55 | the result is that of `Lookup` on the current table |
| TokenRepository.Repository.RevokeRefreshToken | services/auth-service/internal/repository/token_repository.go:57-78 | error and table are those of `RevokeOutcome`; the id sequence is unchanged |
| TokenRepository.Repository.DeleteExpiredRefreshTokens | services/auth-service/internal/repository/token_repository.go:80-88 | error and table are those of `SweepOutcome` |
| AuthService.NewRecord | services/auth-service/internal/service/auth_service.go:95-101 | the saved record: same user and token, unrevoked, expiring RefreshTokenDuration after now, created now |
| AuthService.GenerateStep | services/auth-service/internal/service/auth_service.go:88-110 | tokens are released exactly when minting and saving both succeed, and otherwise are zero; the table changes only by inserting the new refresh record; two token ids are drawn |
| AuthService.RefreshStep | services/auth-service/internal/service/auth_service.go:55-86 | a lookup failure is returned unchanged and nothing is minted; a revoked record fails before the expiry check; an unrevoked record is expired exactly when now is strictly after ExpiresAt; a live record (unrevoked, now at or before ExpiresAt) is exchanged exactly when minting, saving and revoking all succeed; success means a new unrevoked record for the same user expiring at now + RefreshTokenDuration, the presented record revoked, and no other row changed |
| AuthService.LogoutStep | services/auth-service/internal/service/auth_service.go:127-147 | a lookup failure is returned unchanged; an already revoked record is a success that changes nothing; otherwise the revoke's outcome; success leaves the token revoked, and failure leaves the table unchanged |
| AuthService.ValidateToken | services/auth-service/internal/service/auth_service.go:112-125 | succeeds exactly when the JWT manager does, with its user id; every failure is ErrTokenInvalid |
| AuthService.RotationIsOneShot | services/auth-service/internal/service/auth_service.go:62-65 | after a successful refresh, presenting the same token again fails with ErrRefreshTokenRevoked and changes nothing |
| AuthService.RevokeFailureKeepsNewRecord | services/auth-service/internal/service/auth_service.go:72-82 | when revoking the old token fails, the caller gets an error and no tokens, yet the new record stays saved |
| AuthService.LogoutIsIdempotent | services/auth-service/internal/service/auth_service.go:134-137 | a second logout succeeds and changes nothing |
| AuthService.NoRefreshAfterLogout | services/auth-service/internal/service/auth_service.go:139-143 | a logged-out refresh token is refused as revoked |
| AuthService.RotatedTokenRotates | services/auth-service/internal/service/auth_service.go:72-85 | the new refresh token is itself accepted by the next refresh until its own expiry |
| AuthService.AuthService.constructor | services/auth-service/internal/service/auth_service.go:32-42 | the service over the given store and JWT settings |
| AuthService.AuthService.GenerateTokens | services/auth-service/internal/service/auth_service.go:88-110 | reply and new state are those of `GenerateStep` |
| AuthService.AuthService.Authenticate | services/auth-service/internal/service/auth_service.go:44-53 | reply and new state are those of `GenerateStep` |
| AuthService.AuthService.RefreshTokens | services/auth-service/internal/service/auth_service.go:55-86 | reply and new state are those of `RefreshStep` |
| AuthService.AuthService.Logout | services/auth-service/internal/service/auth_service.go:127-147 | error and table are those of `LogoutStep` |
| AuthHandler.MapErrorToProto | services/auth-service/internal/transport/grpc/handler.go:126-149 | TOKEN_EXPIRED, TOKEN_INVALID and REFRESH_TOKEN_REVOKED each exactly when `errors.Is` finds that sentinel; INTERNAL_ERROR exactly when none is found; never INVALID_ARGUMENT |
| AuthHandler.MapErrorFollowsRoot | services/auth-service/internal/transport/grpc/handler.go:126-149 | the code is determined by the sentinel at the root of the `%w` chain |
| AuthHandler.NotFoundIsInternal | services/auth-service/internal/transport/grpc/handler.go:143-148 | the store's not-found error is INTERNAL_ERROR; expiry wrapped with `%w` is still TOKEN_EXPIRED, but formatted with `%s` it is INTERNAL_ERROR |
| AuthHandler.Authenticate | services/auth-service/internal/transport/grpc/handler.go:34-66 | an unparsable id gives INVALID_ARGUMENT "Invalid User ID" and never reaches the service; a service error gives INTERNAL_ERROR with the error's text plus the error itself; success passes the service's values through |
| AuthHandler.ValidateToken | services/auth-service/internal/transport/grpc/handler.go:68-85 | never a transport error; valid exactly on success, with the user id; a failure carries the classified error |
| AuthHandler.RefreshToken | services/auth-service/internal/transport/grpc/handler.go:87-105 | a failure gives the classified error in the response and the raw error to gRPC; success passes the tokens through |
| AuthHandler.Logout | services/auth-service/internal/transport/grpc/handler.go:107-124 | success exactly when the service succeeded; every failure, not-found included, is INTERNAL_ERROR with the error's text |
| AuthHandler.ExpiredAccessTokenReportsInvalid | services/auth-service/internal/service/auth_service.go:113-121 | a failed access-token validation reaches the client as TOKEN_INVALID "Invalid token", so TOKEN_EXPIRED never appears |
| UserErrors.WrapValidation | services/user-service/internal/domain/user.go:63 | the field prefix keeps every sentinel visible to `errors.Is` |
| UserValidation.ValidateUsername | services/user-service/internal/validation/user_validation.go:30-38 | ErrInvalidUsernameLength exactly when the byte length is outside 3..30; otherwise ErrUsernameNotAlphanumeric exactly when a character is outside [a-zA-Z0-9_]; nil exactly for 3 to 30 such characters |
| UserValidation.ValidatePassword | services/user-service/internal/validation/user_validation.go:50-55 | nil exactly when the password has at least 6 bytes, else ErrPasswordTooShort |
| UserValidation.ValidateEmail | services/user-service/internal/validation/user_validation.go:41-47 | nil exactly when the recognizer accepts, else ErrInvalidEmail |
| UserValidation.EmailRecognizerMatchesPattern | services/user-service/internal/validation/user_validation.go:42 | the recognizer accepts a string exactly when it matches `^[a-zA-Z0-9._%+-]+@[a-zA-Z0-9.-]+\.[a-zA-Z]{2,}$` |
| UserValidation.EmailSplitIsUnique | services/user-service/internal/validation/user_validation.go:42 | any way of matching the pattern splits at the first '@' and the last '.', and the string is accepted |
| UserValidation.RejectedExamples | services/user-service/internal/domain/domain_new_user_test.go:176-202 | "ab" fails on length, "test#user" on its characters, and "invalid-email" as an email |
| UserValidation.AcceptedEmailExample | services/user-service/internal/domain/domain_new_user_test.go:64 | "test@example.com" is accepted |
| Avatar.Ext | services/user-service/internal/utils/avatar.go:22 | `filepath.Ext`: a suffix of the name that is empty or starts with '.' |
| Avatar.ExtIsPngIffSuffix | services/user-service/internal/utils/avatar.go:22 | the extension is ".png" exactly when the name ends in ".png" |
| Avatar.AvatarFilesAppend | services/user-service/internal/utils/avatar.go:20-25 | filtering distributes over concatenation, so the list keeps directory order |
| Avatar.AvatarFilesSound | services/user-service/internal/utils/avatar.go:21-25 | every listed name belongs to an entry that is not a directory and whose extension is ".png" |
| Avatar.AvatarFilesComplete | services/user-service/internal/utils/avatar.go:21-25 | every non-directory entry whose extension is ".png" is listed |
| Avatar.SelectRandomAvatar | services/user-service/internal/utils/avatar.go:12-34 | a read error is returned as is; no qualifying file gives "no avatar files found"; otherwise the name at the random index of the filtered list |
| Avatar.SelectionIsAvatarFile | services/user-service/internal/utils/avatar.go:12-34 | a selected name is that of a non-directory ".png" entry |
| Avatar.GetAvatarPath | services/user-service/internal/utils/avatar.go:37-39 | the path is "assets/avatars/" followed by the file name |
| Avatar.GetAvatarPathInjective | services/user-service/internal/utils/avatar.go:37-39 | distinct file names give distinct paths |
| DomainUser.DefaultConfig | services/user-service/internal/domain/user.go:46-54 | bcrypt cost 10 and default avatar "person-1.png" |
| DomainUser.NewUser | services/user-service/internal/domain/user.go:57-90 | checks in the order consent, email, username, each failure being the validator's sentinel wrapped with the field name; succeeds exactly when all pass; the user gets the fresh id, one clock reading for both timestamps, the given fields, and the selected avatar or else the default |
| DomainUser.NewUserFailureKind | services/user-service/internal/domain/user.go:58-68 | a failure carries ErrNoConsent, ErrInvalidEmail or a username sentinel, exactly according to the first failed check |
| DomainUser.NewUserFieldsAreValid | services/user-service/internal/domain/user.go:62-68 | a built user's email matches the pattern, and its username is 3 to 30 word characters |
| DomainUser.AvatarFallback | services/user-service/internal/domain/user.go:70-75 | the avatar URL is the selected file's path, or the default file's path when selection fails |
| DomainUser.TestUsernameIsValid | services/user-service/internal/domain/domain_new_user_test.go:168 | "testuser" passes the username validator |
| DomainUser.NewUserTestErrors | services/user-service/internal/domain/domain_new_user_test.go:156-201 | four of the table test's six failing cases (no consent, bad email, short and non-alphanumeric username) fail with the sentinels the test expects |
| DomainUser.NewUserTestPasswordCases | services/user-service/internal/domain/domain_new_user_test.go:202-219 | the test's PasswordsMismatch and WeakPassword inputs build a user, because the constructor only sees the hash of `password` |
| DomainUser.NewUserReportsNoPasswordError | services/user-service/internal/domain/user.go:57-90 | no failure of the constructor is ErrPasswordsMismatch or ErrPasswordTooShort |
| DomainUser.NewUserTestSuccess | services/user-service/internal/domain/domain_new_user_test.go:46-70 | the table test's valid input builds a user |
| DomainUser.DtoRoundTrip | services/user-service/internal/domain/user.go:93-149 | ToDTO(NewUserFromDTO(d)) is d |
| DomainUser.UserRoundTrip | services/user-service/internal/domain/user.go:93-149 | NewUserFromDTO(u.ToDTO()) is u |
| EntityUser.ClampCost | services/user-service/internal/entity/user.go:74-80 | a cost outside 4..31 becomes 10, and a cost inside is kept |
| EntityUser.HashPasswordClampsOnce | services/user-service/internal/entity/user.go:74-80 | hashing at a clamped cost is hashing at the original cost; cost 0 hashes at 10 |
| EntityUser.FirstFailedCheck | services/user-service/internal/entity/user.go:27-47 | the checks run in the order consent, email, username, password match, password length, and the first failure's text is returned; none fails exactly when consent is given, the email and username are valid, and the passwords match and are at least 6 bytes |
| EntityUser.NewUser | services/user-service/internal/entity/user.go:27-72 | the first failed check's text; succeeds exactly when all checks, bcrypt at cost 10 and avatar selection succeed, a bcrypt failure and an avatar failure are each returned as they came, the avatar one rather than defaulted; the user has the hash, the avatar path, the fresh id and one clock reading |
| EntityUser.NewUserErrorsAreOpaque | services/user-service/internal/entity/user.go:28-56 | none of the service's own sentinels is found in any of its failures: the check errors are plain texts, and bcrypt's and the avatar selector's errors (returned as they came, per `EntityUser.NewUser`) carry none |
| EntityUser.MismatchBeforeLength | services/user-service/internal/entity/user.go:40-46 | mismatched passwords are reported before a short password |
| AuthUser.NewUser | services/auth-service/internal/entities/user.go:24-49 | consent, then at least 6 bytes, then hashing; succeeds exactly when all three do; username and email are stored unvalidated |
| AuthUser.NoFieldValidation | services/auth-service/internal/entities/user.go:40-48 | empty username and email are accepted |
| UserFlows.LookupError | services/user-service/internal/usecase/user.go:79-84 | ErrUserNotFound comes back unwrapped; any other error is wrapped with `%w`, so every sentinel stays visible |
| UserFlows.Login | services/user-service/internal/usecase/user.go:65-101 | the guard makes no call; the lookup is by email when the identifier looks like one; a failed lookup is the last call; a wrong password gives ErrUnauthorized with no Authenticate; a matching password leads to exactly one Authenticate for the found user's id, whose reply decides the result: the id and the tokens on success, the error formatted with `%s` on failure |
| UserFlows.LoginAuthFailureLosesKind | services/user-service/internal/usecase/user.go:91-94 | an auth failure at login is formatted with `%s`, so `errors.Is` finds no sentinel in it |
| UserFlows.ValidateTokenRun | services/user-service/internal/usecase/user.go:103-113 | an empty token gives ErrInvalidInput with no call; otherwise exactly one call, and the reply on success; a failure keeps no sentinel |
| UserFlows.RefreshTokenRun | services/user-service/internal/usecase/user.go:115-129 | the same shape for refresh: one call, the reply on success, a failure with no sentinel |
| UserFlows.LogoutRun | services/user-service/internal/usecase/user.go:131-142 | the same shape for logout, but a failure is wrapped with `%w` and keeps the client's sentinels |
| UserFlows.GetUserRun | services/user-service/internal/usecase/user.go:144-158 | an empty id makes no call; otherwise one lookup, whose failure is reported as described for `LookupError` |
| UserUsecase.PrepareRegistration | services/user-service/internal/usecase/user.go:26-46 | guards in order: empty fields give ErrInvalidInput, a mismatch ErrPasswordsMismatch, a short password ErrPasswordTooShort under "password", and a hashing failure ErrHashingPassword under "password"; past them, the domain constructor's outcome is returned unchanged, failure included; succeeds exactly when all of them pass |
| UserUsecase.Register | services/user-service/internal/usecase/user.go:48-62 | nothing is called unless preparation succeeded; CreateUser comes first, and its failure is returned unchanged with no Authenticate; Authenticate is for the stored user's id; success returns that id and the tokens; an auth failure is wrapped with `%w` |
| UserUsecase.RegisterReturnsGeneratedId | services/user-service/internal/usecase/user.go:53-62 | the id handed back is the generated one |
| UserUsecase.NoConsentStoresNothing | services/user-service/internal/usecase/user.go:42-51 | without consent, CreateUser is never called |
| UserUsecase.StoredUserIsValid | services/user-service/internal/usecase/user.go:26-51 | if anything was stored, consent was given, the passwords matched and every validator passed |
| UserUsecase.UserUsecase.constructor | services/user-service/internal/usecase/user.go:22-24 | no calls made yet |
| UserUsecase.UserUsecase.RegisterUser | services/user-service/internal/usecase/user.go:26-63 | result and appended calls are those of `Register` after `PrepareRegistration` with the default config |
| UserUsecase.UserUsecase.LoginUser | services/user-service/internal/usecase/user.go:65-101 | result and appended calls are those of `Login` |
| UserUsecase.UserUsecase.ValidateToken | services/user-service/internal/usecase/user.go:103-113 | result and appended calls are those of `ValidateTokenRun` |
| UserUsecase.UserUsecase.RefreshToken | services/user-service/internal/usecase/user.go:115-129 | result and appended calls are those of `RefreshTokenRun` |
| UserUsecase.UserUsecase.Logout | services/user-service/internal/usecase/user.go:131-142 | result and appended calls are those of `LogoutRun` |
| UserUsecase.UserUsecase.GetUserByID | services/user-service/internal/usecase/user.go:144-158 | the calls of `GetUserRun`, and its record converted to a domain user |
| UserService.PrepareRegistration | services/user-service/internal/service/user_service.go:37-45 | empty fields give ErrInvalidInput; otherwise the outcome of entity.NewUser |
| UserService.Register | services/user-service/internal/service/user_service.go:47-57 | the same call ordering as the use case, for the entity user |
| UserService.AuthFailureWrapping | services/user-service/internal/service/user_service.go:51-54 | an auth failure during registration keeps its sentinel (`%w`), while one during login does not (`%s`) |
| UserService.UserService.constructor | services/user-service/internal/service/user_service.go:33-35 | no calls made yet |
| UserService.UserService.RegisterUser | services/user-service/internal/service/user_service.go:37-57 | result and appended calls are those of `Register` after `PrepareRegistration` |
| UserService.UserService.LoginUser | services/user-service/internal/service/user_service.go:59-90 | result and appended calls are those of `Login` |
| UserService.UserService.ValidateToken | services/user-service/internal/service/user_service.go:92-102 | result and appended calls are those of `ValidateTokenRun` |
| UserService.UserService.RefreshToken | services/user-service/internal/service/user_service.go:104-115 | result and appended calls are those of `RefreshTokenRun` |
| UserService.UserService.Logout | services/user-service/internal/service/user_service.go:117-128 | result and appended calls are those of `LogoutRun` |
| UserService.UserService.GetUserByID | services/user-service/internal/service/user_service.go:130-144 | result and appended calls are those of `GetUserRun` |
| StreamEntity.StatusStaysAllowed | services/streaming-service/internal/entities/stream.go:36-49 | from an allowed status, any sequence of updates ends in an allowed status |
| StreamEntity.StatusAfterIsLastAllowed | services/streaming-service/internal/entities/stream.go:43-49 | after a sequence of updates, the status is the last allowed request, or the starting status if no request was allowed |
| StreamEntity.AnyAllowedStatusFollows | services/streaming-service/internal/entities/stream.go:44-48 | every allowed status can follow every status |
| StreamEntity.Stream.constructor | services/streaming-service/internal/entities/stream.go:32-39 | the given id, title, user and times, with status "scheduled" |
| StreamEntity.Stream.UpdateStatus | services/streaming-service/internal/entities/stream.go:43-50 | accepts exactly "active", "ended" and "scheduled"; a rejected status returns "invalid stream status" and changes nothing; an accepted one sets only the status and UpdatedAt |
| StreamEntity.NewStream | services/streaming-service/internal/entities/stream.go:27-40 | an empty title returns an error and no stream; otherwise a fresh scheduled stream with the given title and user |
| FfmpegService.TranscodeCommand | services/streaming-service/internal/service/ffmpeg_service.go:39-48 | the command reads the input URL and writes to "/path/to/hls/<id>/index.m3u8" |
| FfmpegService.Start | services/streaming-service/internal/service/ffmpeg_service.go:28-58 | an id already running, or a failed launch, returns an error and leaves the table; success adds exactly that id, with its command, and leaves the other entries |
| FfmpegService.Stop | services/streaming-service/internal/service/ffmpeg_service.go:61-78 | an unknown id, or a failed kill, returns an error and keeps the table; success removes exactly that id and leaves the other entries |
| FfmpegService.StartThenStopRestores | services/streaming-service/internal/service/ffmpeg_service.go:56-76 | a successful start followed by a successful stop of the same id restores the table |
| FfmpegService.SecondStartFails | services/streaming-service/internal/service/ffmpeg_service.go:33-35 | starting a running id again fails, whatever the launcher would do |
| FfmpegService.FFmpegService.constructor | services/streaming-service/internal/service/ffmpeg_service.go:18-22 | an empty process table |
| FfmpegService.FFmpegService.StartStream | services/streaming-service/internal/service/ffmpeg_service.go:28-58 | error and new table are those of `Start` |
| FfmpegService.FFmpegService.StopStream | services/streaming-service/internal/service/ffmpeg_service.go:61-78 | error and new table are those of `Stop` |
| StreamService.Lookup | services/streaming-service/internal/repository/stream_repository.go:31-39 | a record is returned exactly when there is no driver fault and the id has a row; a missing row gives "stream not found" |
| StreamService.Start | services/streaming-service/internal/service/stream_service.go:43-87 | a failed insert ends the call with nothing stored or launched; after a successful insert the LIVE record stays whatever follows; past the insert, an unparsable userID gives InvalidUserId, a failed profile lookup ProfileNotFound and a failed launch LaunchFailed; the stream is returned exactly when the insert, the userID parse, the profile lookup and the FFmpeg launch all succeed; every failure leaves the process table unchanged |
| StreamService.Stop | services/streaming-service/internal/service/stream_service.go:91-121 | an unparsable id, or a failed read, changes nothing; a found record whose write fails gives UpdateFailed and changes nothing; the call succeeds exactly when the id parses, its row exists and neither the read nor the write fails; success means the row is OFFLINE with UpdatedAt now and the FFmpeg process under the given text is stopped, and a stop failure is not reported |
| StreamService.Get | services/streaming-service/internal/service/stream_service.go:124-130 | an invalid UUID gives an error; otherwise the repository's answer |
| StreamService.InvalidUserIdLeavesRecord | services/streaming-service/internal/service/stream_service.go:45-67 | a bad userID fails after the LIVE record already exists, and nothing is launched |
| StreamService.CreateFailureIgnoresProfiles | services/streaming-service/internal/service/stream_service.go:57-61 | after a failed insert, the outcome does not depend on the profile repository or the launcher |
| StreamService.LaunchedCommand | services/streaming-service/internal/service/stream_service.go:77-80 | FFmpeg is launched for the stream's id text, reading rtmpServerURL + "/" + streamKey |
| StreamService.KillFailureIsIgnored | services/streaming-service/internal/service/stream_service.go:114-120 | a failed FFmpeg stop still returns success, with the record OFFLINE |
| StreamService.EndTimeIsNotPersisted | services/streaming-service/internal/service/stream_service.go:105-109 | after a stop, the record read back is OFFLINE with the new UpdatedAt, but its EndTime is still zero |
| StreamService.StartThenStopRestoresProcesses | services/streaming-service/internal/service/stream_service.go:80-115 | starting a stream and then stopping it by its canonical id text leaves the record OFFLINE and the process table as it was |
| StreamService.NonCanonicalStopLeavesProcess | services/streaming-service/internal/service/stream_service.go:92-115 | stopping by another spelling of the same UUID marks the record OFFLINE but leaves its FFmpeg process in the table |
| StreamService.StreamService.constructor | services/streaming-service/internal/service/stream_service.go:26-38 | an empty stream table over the given FFmpeg service and RTMP URL |
| StreamService.StreamService.StartStream | services/streaming-service/internal/service/stream_service.go:43-87 | result, stream table and process table are those of `Start` |
| StreamService.StreamService.StopStream | services/streaming-service/internal/service/stream_service.go:91-121 | error, stream table and process table are those of `Stop` |
| StreamService.StreamService.GetStream | services/streaming-service/internal/service/stream_service.go:124-130 | the result is that of `Get` on the current table |
| ChatMessage.NewChatMessage | services/chat-service/internal/entity/message.go:21-30 | copies stream, user, username and content, with a fresh id and the current time, and is not deleted |
| ChatMessage.ValidateIff | services/chat-service/internal/entity/message.go:33-35 | valid exactly when content and username are non-empty and the stream id is not nil |
| ChatMessage.ValidateIgnoresOtherFields | services/chat-service/internal/entity/message.go:34 | validity does not depend on the id, user id, timestamp or deleted flag |
| ChatMessage.NewChatMessageValidIff | services/chat-service/internal/entity/message.go:21-35 | a new message is valid exactly when the username and content are non-empty and the stream id is not nil |

## Left out

- TruncSeconds (JwtManager.TruncSeconds): `int64(d.Seconds())` goes through a float64, and the model takes it as exact truncating division by one second. The two differ only when |d| is at least 2^24 seconds (about 194 days) and its sub-second part is within a few nanoseconds of a whole second. There the float64 sum can round up to the next second.
- GenerateTokens (JwtManager.GenerateTokens): the access and refresh expiries come from two `time.Now()` calls (jwt_manager.go lines 34 and 48). The model reads the clock once, so the gap between the two readings is not modelled.
- NewRecord (AuthService.NewRecord): ExpiresAt and CreatedAt come from two `time.Now()` calls (auth_service.go lines 98 and 100). The model uses one instant for both.
- GenerateStep (AuthService.GenerateStep): the JWT expiries and the stored record's times share one instant. In Go, the stored ExpiresAt is not exactly the refresh JWT's `exp`.
- RefreshStep (AuthService.RefreshStep): the expiry check (auth_service.go line 67) and the minting and saving that follow share one instant. In Go, the clock moves between them.
- Start (StreamService.Start): StartTime, CreatedAt and UpdatedAt come from three `time.Now()` calls (stream_service.go lines 51-53). The model gives them one instant.
- Stop (StreamService.Stop): EndTime and UpdatedAt come from two `time.Now()` calls (stream_service.go lines 106-107). The model gives them one instant.
- Logging (`slog`, `log.Printf`) and the mutex of the FFmpeg service have no effect on results.
- The auth service's 24-hour cleanup goroutine and ticker are concurrency. The sweep is the single call `DeleteExpiredRefreshTokens(now)`, with `now` standing for the database's `NOW()`.
- Concurrent refreshes of one token depend on database isolation. Only sequential histories are modelled.
- HS256 signing and parsing (golang-jwt) are the `Codec` parameter, and bcrypt is a function parameter or its result. The only assumption is `JwtManager.RoundTrips`: a signed token parses back to its claims before its expiry.
- The regular-expression engine is not modelled. The two patterns are hand-written recognizers; the email one is proved equal to its pattern.
- `utils.IsEmail` is not part of this model. Login's choice of lookup takes it as a parameter.
- SQL text, the driver, Postgres and the network are not modelled. The refresh-token table, the stream table and the process table are abstract maps, and driver errors are fault parameters.
- `customErrors` (`internal/errors`) and the domain's `ErrNoConsent`, `ErrPasswordsMismatch` and `ErrHashingPassword` are sentinels identified by kind. Their texts are not part of this model.
- The domain user's getters are the datatype's fields. `ID()` formatting the UUID as text is not modelled: the id is passed on as the UUID itself.
- `CheckPassword` (bcrypt comparison) is the `passwordMatches` parameter of login.
- The `Thumbnail`, `Description` and `StartTime` columns are not stored by the repository. The model keeps them on the returned stream only.
- `StreamService.UpdateStreamStatus` is not modelled. It runs raw SQL on a database handle that the constructor never sets.
- StreamService.Stop: the `stream == nil` branch of `StopStream` is not modelled, because the repository returns an error, never a nil stream without one.
- Go's `time.Time` monotonic clock and time zones are not modelled, nor `UTC()` in the chat message. Instants are integer nanoseconds.
- `rand.Intn(n)` is `choice % n` for an arbitrary `choice`, which reaches every index but says nothing about the distribution.
- The HTTP, gRPC and WebSocket plumbing, the REST and RTMP handlers, the configuration loaders and `main`/`app` wiring are not modelled.
