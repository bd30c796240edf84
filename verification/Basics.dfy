/** Shared vocabulary: results, bounded integers, time, names and opaque payloads. */
module Basics {

  datatype Option<+T> = None | Some(value: T)

  /** The sentinel errors the modelled operations return. */
  datatype Error =
    | InvalidDefinition
    | DuplicateDefinition
    | DefinitionNotFound
    | DefinitionMismatch
    | InvalidMigration
    | DuplicateMigration
    | MigrationNotFound
    | InvalidHistoryEvent
    | EmptyHistory
    | HistoryConflict
    | InvalidTransition
    | InvalidPlan
    | InvalidOrchestration
    | InvalidStoreRequest
    | StoreNotFound
    | StoreConflict
    | DuplicateTransition
    | StaleWorkLease
    | HistoryLimitExceeded
    | InvalidProcessor
    | InvalidWorker
    | ConstraintViolation
    | Transport

  datatype Result<+T> = Ok(value: T) | Err(error: Error)

  const MAX_UINT32: int := 0xffff_ffff
  const MAX_UINT64: int := 0xffff_ffff_ffff_ffff
  const MAX_INT64: int := 0x7fff_ffff_ffff_ffff

  type Uint32 = n: int | 0 <= n <= MAX_UINT32
  type Uint64 = n: int | 0 <= n <= MAX_UINT64

  /** A time.Duration: signed 64-bit nanoseconds. */
  type Duration = n: int | -MAX_INT64 - 1 <= n <= MAX_INT64

  /** Instants are integers; zero is the zero time.Time, which means "absent". */
  type Time = int
  const ZERO_TIME: Time := 0

  const MAX_PAYLOAD_BYTES: int := 16 * 1024 * 1024

  /** Unsigned increment with the wrap-around of a fixed width. */
  function Next64(n: Uint64): Uint64 {
    if n == MAX_UINT64 then 0 else n + 1
  }

  function Next32(n: Uint32): Uint32 {
    if n == MAX_UINT32 then 0 else n + 1
  }

  function Min(a: int, b: int): int {
    if a < b then a else b
  }

  function Max(a: int, b: int): int {
    if a < b then b else a
  }

  predicate AlphaNumeric(c: char) {
    'a' <= c <= 'z' || 'A' <= c <= 'Z' || '0' <= c <= '9'
  }

  predicate NameCharacter(c: char) {
    AlphaNumeric(c) || c == '.' || c == '_' || c == '/' || c == '-'
  }

  /** Bounded ASCII names of definitions, steps, targets and codes. */
  predicate StableName(s: string) {
    1 <= |s| <= 128 && AlphaNumeric(s[0]) && forall i | 1 <= i < |s| :: NameCharacter(s[i])
  }

  /** The identity pattern, which additionally admits colons and is longer. */
  predicate IdentityText(s: string) {
    1 <= |s| <= 256 && AlphaNumeric(s[0]) && forall i | 1 <= i < |s| :: NameCharacter(s[i]) || s[i] == ':'
  }

  datatype ProcessorKind = ActivityProcessor | CompensationProcessor | ChildProcessor

  /**
   * A stable identity. The processors derive identities by hashing a work
   * identity with a phase; that digest is taken to be injective, so a derived
   * identity is represented by what was hashed. Every derived identity is a
   * fixed prefix, a phase and a hexadecimal digest, and so always well-formed.
   */
  datatype Ident =
    | Plain(text: string)
    | Hashed(processor: ProcessorKind, phase: string, of: Ident)

  predicate ValidIdent(id: Ident) {
    match id
    case Plain(text) => IdentityText(text)
    case Hashed(_, _, _) => true
  }

  const NO_IDENT: Ident := Plain("")

  predicate OptionalMetadata(id: Ident) {
    id == NO_IDENT || ValidIdent(id)
  }

  /** Number of text bytes an identity occupies in an encoded document. */
  function IdentLength(id: Ident): nat {
    match id
    case Plain(text) => |text|
    case Hashed(processor, phase, _) =>
      (match processor
       case ActivityProcessor => 19
       case CompensationProcessor => 23
       case ChildProcessor => 16) + |phase| + 1 + 64
  }
}
