/**
 * The user record exchanged with the user repository (dto.User). The older
 * entity.User has the same eight fields and is represented by the same type.
 */
module UserDto {
  import opened Common

  datatype User = User(
    id: Uuid,
    username: string,
    email: string,
    passwordHash: string,
    avatarUrl: string,
    consentToDataProcessing: bool,
    createdAt: Instant,
    updatedAt: Instant)
}
