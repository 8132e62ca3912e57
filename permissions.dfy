/**
 * The DRF permission classes of the Django back end's accounts app: four
 * role checks on the request, and one object check.
 */
module Permissions {
  import opened HrRecords

  /** The request's user: anonymous, or a signed-in user with an id and a role. */
  datatype Requester = Anonymous | SignedIn(id: int, role: string)

  /** `IsAdmin`. */
  predicate IsAdmin(r: Requester) {
    r.SignedIn? && r.role == RoleAdmin
  }

  /** `IsHROrAdmin`. */
  predicate IsHROrAdmin(r: Requester) {
    r.SignedIn? && r.role in [RoleHrOfficer, RoleAdmin]
  }

  /** `IsPayrollOrAdmin`. */
  predicate IsPayrollOrAdmin(r: Requester) {
    r.SignedIn? && r.role in [RolePayrollOfficer, RoleAdmin]
  }

  /** `IsHROrPayrollOrAdmin`. */
  predicate IsHROrPayrollOrAdmin(r: Requester) {
    r.SignedIn? && r.role in [RoleHrOfficer, RolePayrollOfficer, RoleAdmin]
  }

  /** An anonymous request fails all four role checks. */
  lemma AnonymousDenied()
    ensures !IsAdmin(Anonymous) && !IsHROrAdmin(Anonymous)
    ensures !IsPayrollOrAdmin(Anonymous) && !IsHROrPayrollOrAdmin(Anonymous)
  {
  }

  /** An admin passes all four; an employee passes none. */
  lemma AdminAllEmployeeNone(id: int)
    ensures var a := SignedIn(id, RoleAdmin);
            IsAdmin(a) && IsHROrAdmin(a) && IsPayrollOrAdmin(a) && IsHROrPayrollOrAdmin(a)
    ensures var e := SignedIn(id, RoleEmployee);
            !IsAdmin(e) && !IsHROrAdmin(e) && !IsPayrollOrAdmin(e) && !IsHROrPayrollOrAdmin(e)
  {
  }

  /** The three-role check accepts exactly who either two-role check accepts, and each two-role check accepts every admin. */
  lemma RoleChecksNest(r: Requester)
    ensures IsHROrPayrollOrAdmin(r) <==> IsHROrAdmin(r) || IsPayrollOrAdmin(r)
    ensures IsAdmin(r) ==> IsHROrAdmin(r) && IsPayrollOrAdmin(r)
  {
  }

  /** The object a request touches: a row with an `employee` owner, or a user row itself. */
  datatype Target = OwnedRow(employee: int) | UserRow(userId: int)

  /**
   * The object check's three endings: allow, deny, or an attribute error
   * (an anonymous request has no `role`; a user row has no `employee`).
   */
  datatype Verdict = Allow | Deny | AttributeError

  /**
   * `IsOwnerOrAdmin.has_object_permission`. An admin is allowed anything.
   * Otherwise `obj.employee` is read first: a row allows its owner, and a
   * row is never equal to a user, so the second test adds nothing; a user
   * row has no `employee` and fails before its own identity is compared.
   */
  function OwnerOrAdmin(r: Requester, t: Target): (v: Verdict)
    ensures r.SignedIn? && r.role == RoleAdmin ==> v == Allow
    ensures v == Allow ==> r.SignedIn? && (r.role == RoleAdmin || (t.OwnedRow? && t.employee == r.id))
    ensures r.SignedIn? && t.OwnedRow? ==> v != AttributeError
  {
    match r
    case Anonymous => AttributeError
    case SignedIn(id, role) =>
      if role == RoleAdmin then Allow
      else match t
        case OwnedRow(employee) => if employee == id then Allow else Deny
        case UserRow(_) => AttributeError
  }

  /** A signed-in non-admin is allowed on a row exactly when the row is theirs. */
  lemma OwnerAllowedIff(id: int, role: string, employee: int)
    requires role != RoleAdmin
    ensures OwnerOrAdmin(SignedIn(id, role), OwnedRow(employee)) == Allow <==> employee == id
  {
  }
}
