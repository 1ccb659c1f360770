/**
 * The sentinel errors of the user service: the validation package's four, the
 * domain's three, and the three of the service-wide errors package.
 */
module UserErrors {
  import GoErrors

  datatype Kind =
    | InvalidUsernameLength   // validation.ErrInvalidUsernameLength
    | UsernameNotAlphanumeric // validation.ErrUsernameNotAlphanumeric
    | InvalidEmail            // validation.ErrInvalidEmail
    | PasswordTooShort        // validation.ErrPasswordTooShort
    | NoConsent               // ErrNoConsent
    | PasswordsMismatch       // ErrPasswordsMismatch
    | HashingPassword         // ErrHashingPassword
    | InvalidInput            // errors.ErrInvalidInput
    | UserNotFound            // errors.ErrUserNotFound
    | Unauthorized            // errors.ErrUnauthorized

  type Error = GoErrors.Error<Kind>

  /** WrapValidationError(field, err): "field: %w". */
  function WrapValidation(field: string, err: Error): (e: Error)
    ensures forall k :: GoErrors.Is(e, k) == GoErrors.Is(err, k)
  {
    GoErrors.Wrap(field, err)
  }
}
