/**
 * Vocabulary shared by every module: optional values, results that carry an
 * error, identifiers and instants.
 */
module Prelude {

  datatype Option<+T> = None | Some(value: T)

  datatype Result<+T, +E> = Ok(value: T) | Err(error: E)

  // A version-4 UUID, kept as its 128-bit value; only equality and order matter.
  type Uuid = nat

  datatype UserRole = PlainUser | Admin | SuperAdmin

  // Milliseconds since the epoch, as a JavaScript Date holds them.
  type Time = nat

  // An instant as the database stamps it: finer than a Date, which keeps only the
  // millisecond when the stamp is read back.
  datatype Stamp = Stamp(date: Time, micros: nat)

  predicate Earlier(a: Stamp, b: Stamp) {
    a.date < b.date || (a.date == b.date && a.micros < b.micros)
  }

  function AsDate(s: Stamp): Stamp {
    Stamp(s.date, 0)
  }
}
