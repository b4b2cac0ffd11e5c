/** Types shared by every module of the model. */
module Prelude {
  /** A nullable value: Go's nil, or a missing row. */
  datatype Option<+T> = None | Some(value: T)

  /** A uuid.UUID, of which only equality matters. */
  type Uuid = int

  /** The domain errors, and every other (wrapped) error as ErrInternal. */
  datatype Error =
    | ErrNotFound
    | ErrAlreadyExists
    | ErrUnauthorized
    | ErrInvalidToken
    | ErrEmailNotVerified
    | ErrInternal

  /** Instants are nanoseconds since some origin; durations are nanoseconds. */
  const SECOND: nat := 1_000_000_000
  const MINUTE: nat := 60 * SECOND
  const HOUR: nat := 60 * MINUTE
  const DAY: nat := 24 * HOUR
}
