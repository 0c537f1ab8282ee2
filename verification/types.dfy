/** The record shapes shared by the two authentication screens. The
    application's own type declarations are not part of this model; only the
    fields the screens read or write are kept. */
module Types {

  datatype Option<T> = None | Some(value: T)

  /** The views a user may be granted access to. The signup screen only ever
      grants the first three; any other view is kept by name. */
  datatype ViewType = Clients | Projects | Calendar | OtherView(name: string)

  /** A registered user as kept in the application's shared user list. */
  datatype User = User(
    id: string,
    fullName: string,
    email: string,
    password: string,
    role: string,
    permissions: seq<ViewType>,
    isApproved: bool)

  /** A row of the backend's `users` table as the login screen receives it.
      The approval column is untyped on the wire: `Some(b)` is a boolean and
      `None` stands for every other value (null, undefined, a missing column). */
  datatype ProfileRow = ProfileRow(
    id: string,
    fullName: string,
    email: string,
    role: string,
    permissions: seq<ViewType>,
    isApproved: Option<bool>)
}
