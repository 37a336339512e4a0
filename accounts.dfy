/** The backend's user model: its role constants and role predicates. */
module Accounts {

  const RoleAdmin := "ADMIN"
  const RoleManager := "MANAGER"
  const RoleInstructor := "INSTRUCTOR"

  /** The role choice list, and the role a new user gets. */
  const RoleChoices: seq<string> := [RoleAdmin, RoleManager, RoleInstructor]
  const DefaultRole := RoleInstructor

  /** A user account. The role column holds any string; only the choice
      list above is offered by forms. */
  datatype Account = Account(id: int, username: string, role: string, isSuperuser: bool)

  /** A user created without an explicit role. */
  function NewAccount(id: int, username: string): (a: Account)
    ensures a.id == id && a.username == username && !a.isSuperuser
    ensures a.role == DefaultRole && a.role in RoleChoices
  {
    Account(id, username, DefaultRole, false)
  }

  predicate IsAdmin(a: Account) { a.role == RoleAdmin }
  predicate IsManager(a: Account) { a.role == RoleManager }
  predicate IsInstructor(a: Account) { a.role == RoleInstructor }

  /** At most one role predicate holds, whatever the role string is. */
  lemma AtMostOneRole(a: Account)
    ensures !(IsAdmin(a) && IsManager(a))
    ensures !(IsAdmin(a) && IsInstructor(a))
    ensures !(IsManager(a) && IsInstructor(a))
  {
  }

  /** For a role in the choice list exactly one predicate holds, and for a
      role outside it none does. */
  lemma ExactlyOneRoleForChoices(a: Account)
    ensures a.role in RoleChoices <==> IsAdmin(a) || IsManager(a) || IsInstructor(a)
  {
  }

  /** A new user is an instructor. */
  lemma NewAccountIsInstructor(id: int, username: string)
    ensures IsInstructor(NewAccount(id, username))
    ensures !IsAdmin(NewAccount(id, username)) && !IsManager(NewAccount(id, username))
  {
  }
}
