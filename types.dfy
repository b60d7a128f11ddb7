/** Option, for the optional parts of a response and Go's nil-or-error values. */
module Wrappers {
  datatype Option<+T> = None | Some(value: T)
}

/** The values the handlers pass around. */
module Types {
  /**
   * A row of the users table (pkg/types/user.go): the id the store assigns,
   * the username, the e-mail address, the password field (the bcrypt hash
   * once stored) and the creation time, kept abstract as an integer.
   */
  datatype User = User(id: nat, username: string, email: string, password: string, createdAt: int)

  /**
   * What a call into code outside the model returned: Go's `(value, error)`
   * pair, with `Fail(msg)` carrying the error's `Error()` text.
   */
  datatype Outcome<+T> = Ok(value: T) | Fail(msg: string)
}
