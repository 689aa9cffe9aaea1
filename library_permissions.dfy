/**
 * The permission classes of library/permissions.py: decisions over who is asking, with which
 * HTTP method, and (for object permissions) who owns the object.
 */
module LibraryPermissions {

  /** `request.user`: Django's anonymous user, or a signed-in account. */
  datatype Requester = Anonymous | Member(id: nat, isStaff: bool) {
    /** `is_staff` is false on the anonymous user. */
    predicate IsStaff() {
      Member? && isStaff
    }

    predicate IsAuthenticated() {
      Member?
    }

    /** `obj.user == request.user`: the anonymous user owns nothing. */
    predicate Owns(ownerId: nat) {
      Member? && id == ownerId
    }
  }

  /** DRF's `SAFE_METHODS`. */
  predicate IsSafeMethod(verb: string) {
    verb == "GET" || verb == "HEAD" || verb == "OPTIONS"
  }

  /** `IsAdminOrReadOnly.has_permission`. */
  predicate AdminOrReadOnly(verb: string, user: Requester) {
    if IsSafeMethod(verb) then true else user.IsStaff()
  }

  /** `IsBorrowerOrReadOnly.has_permission`. */
  predicate BorrowerHasPermission(verb: string, user: Requester) {
    if user.IsStaff() then true
    else if IsSafeMethod(verb) then user.IsAuthenticated()
    else false
  }

  /** `IsBorrowerOrReadOnly.has_object_permission` for an object owned by `ownerId`. */
  predicate BorrowerHasObjectPermission(verb: string, user: Requester, ownerId: nat) {
    if user.IsStaff() then true
    else if IsSafeMethod(verb) then user.Owns(ownerId)
    else false
  }

  /** Read-only access for everyone; anything else for staff only. */
  lemma AdminOrReadOnlyDecision(verb: string, user: Requester)
    ensures IsSafeMethod(verb) ==> AdminOrReadOnly(verb, user)
    ensures !IsSafeMethod(verb) ==> (AdminOrReadOnly(verb, user) <==> user.IsStaff())
  {
  }

  /** Staff pass both checks; others read when signed in (or when they own the object) and never write. */
  lemma BorrowerDecision(verb: string, user: Requester, ownerId: nat)
    ensures user.IsStaff() ==> BorrowerHasPermission(verb, user) && BorrowerHasObjectPermission(verb, user, ownerId)
    ensures !user.IsStaff() && IsSafeMethod(verb) ==>
      (BorrowerHasPermission(verb, user) <==> user.IsAuthenticated())
      && (BorrowerHasObjectPermission(verb, user, ownerId) <==> user.Owns(ownerId))
    ensures !user.IsStaff() && !IsSafeMethod(verb) ==>
      !BorrowerHasPermission(verb, user) && !BorrowerHasObjectPermission(verb, user, ownerId)
  {
  }

  /** Whatever a non-staff requester is granted uses a safe method. */
  lemma NonStaffGrantsAreReadOnly(verb: string, user: Requester, ownerId: nat)
    requires !user.IsStaff()
    requires AdminOrReadOnly(verb, user) || BorrowerHasPermission(verb, user)
          || BorrowerHasObjectPermission(verb, user, ownerId)
    ensures IsSafeMethod(verb)
  {
  }

  /** Making an account staff never turns a grant into a denial. */
  lemma PromotionKeepsGrants(verb: string, id: nat, ownerId: nat)
    ensures AdminOrReadOnly(verb, Member(id, false)) ==> AdminOrReadOnly(verb, Member(id, true))
    ensures BorrowerHasPermission(verb, Member(id, false)) ==> BorrowerHasPermission(verb, Member(id, true))
    ensures BorrowerHasObjectPermission(verb, Member(id, false), ownerId)
        ==> BorrowerHasObjectPermission(verb, Member(id, true), ownerId)
  {
  }

  /** library/tests/test_borrowing_api.py: an ordinary user may list but not create borrowings. */
  lemma OrdinaryUserCannotCreateBorrowing(id: nat)
    ensures BorrowerHasPermission("GET", Member(id, false))
    ensures !BorrowerHasPermission("POST", Member(id, false))
    ensures !BorrowerHasPermission("GET", Anonymous)
  {
  }
}
