/** The user store: registered accounts keyed by their email. */
module Accounts {

  /** A registered account; the password is kept only as its salted hash. */
  datatype User = User(username: string, email: string, passwordHash: string)

  /** Every account is stored under its own email, so no two accounts share one. */
  ghost predicate KeyedByEmail(users: map<string, User>) {
    forall e :: e in users ==> users[e].email == e
  }
}
