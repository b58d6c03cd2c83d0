/** Who is asking: the role stored on a profile, and the visitor as the
    request handlers see it after asking the auth service for the user. */
module Roles {
  import opened Wrappers

  /** The `UserRole` union of src/types/database.ts. */
  datatype UserRole = Admin | Guru | Siswa

  /** A request's user: nobody signed in, or a signed-in user together with
      the role read from their profile row, absent when there is no row. */
  datatype Visitor = Anonymous | SignedIn(role: Option<UserRole>)

  /** Staff may enter the admin area: `role === 'admin' || role === 'guru'`.
      An absent role is not staff. */
  predicate IsStaff(role: Option<UserRole>)
  {
    role == Some(Admin) || role == Some(Guru)
  }

  /** A signed-in visitor whose profile grants the admin area. */
  predicate IsStaffVisitor(v: Visitor)
  {
    v.SignedIn? && IsStaff(v.role)
  }
}
