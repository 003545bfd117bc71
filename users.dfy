/** The account record shared by every page of the site (types.ts). */
module Users {

  /** A signed-in user. Identifiers and timestamps are opaque strings. */
  datatype User = User(id: string, name: string, email: string, isVerified: bool, createdAt: string)
}
