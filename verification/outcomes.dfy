/** Small wrapper types shared by the authentication model. */
module Outcomes {

  /** A value that may be missing (a `null` or `undefined` field in the source). */
  datatype Option<+T> = None | Some(value: T)

  /** What an awaited call into a collaborator did: it threw, or it returned a value. */
  datatype Outcome<+T> = Throws | Ok(value: T)
}
