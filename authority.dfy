/** The five authority tables: the permission strings each kind of user is granted. */
module Authority {

  const USER_AUTHORITIES: seq<string> := ["user:read"]
  const HR_AUTHORITIES: seq<string> := ["user:read", "user:update"]
  const MANAGER_AUTHORITIES: seq<string> := ["user:read", "user:update"]
  const ADMIN_AUTHORITIES: seq<string> := ["user:read", "user:create", "user:update"]
  const SUPER_ADMIN_AUTHORITIES: seq<string> := ["user:read", "user:create", "user:update", "user:delete"]

  /** Every element of `a` is an element of `b`. */
  predicate Within(a: seq<string>, b: seq<string>)
  {
    forall i :: 0 <= i < |a| ==> a[i] in b
  }

  /** No string appears twice. */
  predicate NoDuplicates(a: seq<string>)
  {
    forall i, j :: 0 <= i < j < |a| ==> a[i] != a[j]
  }

  /** The user table is exactly "user:read", and the HR and manager tables are equal. */
  lemma TableValues()
    ensures USER_AUTHORITIES == ["user:read"]
    ensures HR_AUTHORITIES == MANAGER_AUTHORITIES
  {
  }

  /** The tables are nested: user within HR within admin within super-admin. */
  lemma TablesNested()
    ensures Within(USER_AUTHORITIES, HR_AUTHORITIES)
    ensures Within(HR_AUTHORITIES, ADMIN_AUTHORITIES)
    ensures Within(ADMIN_AUTHORITIES, SUPER_ADMIN_AUTHORITIES)
  {
  }

  /** "user:delete" is granted by the super-admin table alone. */
  lemma DeleteOnlyForSuperAdmin()
    ensures "user:delete" in SUPER_ADMIN_AUTHORITIES
    ensures "user:delete" !in USER_AUTHORITIES && "user:delete" !in HR_AUTHORITIES
    ensures "user:delete" !in MANAGER_AUTHORITIES && "user:delete" !in ADMIN_AUTHORITIES
  {
  }

  /** Every table starts with "user:read" and lists no permission twice. */
  lemma TablesWellFormed(t: seq<string>)
    requires t in [USER_AUTHORITIES, HR_AUTHORITIES, MANAGER_AUTHORITIES, ADMIN_AUTHORITIES, SUPER_ADMIN_AUTHORITIES]
    ensures |t| > 0 && t[0] == "user:read"
    ensures NoDuplicates(t)
  {
  }
}
