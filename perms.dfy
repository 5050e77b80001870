/** The permission classes of the health API (healthapis/health/perms.py) and
    the two questions a permission class answers: may this request reach the
    view at all, and may it act on this object. A class that does not answer
    a question inherits the permissive answer of its base class. */
module Perms {
  import opened Models

  /** Who sent the request: nobody signed in, or a stored user. */
  datatype Requester =
    | Anonymous
    | Member(user: int, role: Role)

  /** `IsUser.has_permission`: signed in and holding the USER role. */
  predicate IsUser(r: Requester) {
    r.Member? && r.role == USER
  }

  /** `IsExpert.has_permission`: signed in and holding the EXPERT role. */
  predicate IsExpert(r: Requester) {
    r.Member? && r.role == EXPERT
  }

  /** `IsConnectionOwnerOrExpert.has_object_permission` on a connection whose
      user is `owner` and whose expert record belongs to `expertUser`: the
      requester is one of the two parties. An anonymous requester equals no
      stored user. */
  predicate IsConnectionOwnerOrExpert(r: Requester, owner: int, expertUser: int) {
    r.Member? && (r.user == owner || r.user == expertUser)
  }

  /** The permission classes the views name, the framework's own
      `IsAuthenticated` included. */
  datatype Permission =
    | IsAuthenticated
    | UserOnly
    | ExpertOnly
    | OwnerOrExpert

  /** The view-level answer. `IsConnectionOwnerOrExpert` defines only the
      object-level check, so at view level it lets every request through. */
  predicate HasPermission(p: Permission, r: Requester) {
    match p
    case IsAuthenticated => r.Member?
    case UserOnly => IsUser(r)
    case ExpertOnly => IsExpert(r)
    case OwnerOrExpert => true
  }

  /** The object-level answer for a connection. Only
      `IsConnectionOwnerOrExpert` looks at the object; the others inherit the
      base class's permissive answer. */
  predicate HasObjectPermission(p: Permission, r: Requester, owner: int, expertUser: int) {
    match p
    case OwnerOrExpert => IsConnectionOwnerOrExpert(r, owner, expertUser)
    case _ => true
  }

  /** The two role checks exclude each other; an administrator passes
      neither, and an anonymous requester passes nothing that asks who
      they are. */
  lemma RoleChecksExclusive(r: Requester, owner: int, expertUser: int)
    ensures !(IsUser(r) && IsExpert(r))
    ensures r.Member? && r.role == ADMIN ==> !IsUser(r) && !IsExpert(r)
    ensures r == Anonymous ==>
      !IsUser(r) && !IsExpert(r) && !HasPermission(IsAuthenticated, r)
      && !IsConnectionOwnerOrExpert(r, owner, expertUser)
  {
  }

  /** Each role check implies being signed in. */
  lemma RoleChecksNeedSignIn(p: Permission, r: Requester)
    requires p == UserOnly || p == ExpertOnly
    ensures HasPermission(p, r) ==> HasPermission(IsAuthenticated, r)
  {
  }
}
