/** Column types shared by the `users` and `posts` tables, and the storage errors the model keeps. */
module Db {

  /** A UUID primary key. Only equality matters here; its 128-bit text form is not part of this model. */
  type Uuid = nat

  /** A `PrimitiveDateTime`. Only its order matters here (`ORDER BY created_at`). */
  type Timestamp = int

  /** Rust `i64`. */
  type I64 = x: int | -0x8000_0000_0000_0000 <= x < 0x8000_0000_0000_0000

  /** Rust `u64`. */
  type U64 = x: int | 0 <= x < 0x1_0000_0000_0000_0000

  /**
   * The two ways a statement fails in this model: `fetch_one` finding no row,
   * and an INSERT whose generated primary key is already taken.
   */
  datatype DbError = RowNotFound | UniqueViolation
}
