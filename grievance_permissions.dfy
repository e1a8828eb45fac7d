/** backend/apps/grievances/permissions.py: reading is open to everyone,
    writing only to the grievance's author. */
module GrievancePermissions {
  import opened Common

  /** DRF's `SAFE_METHODS`. */
  predicate IsSafeMethod(verb: string) {
    verb == "GET" || verb == "HEAD" || verb == "OPTIONS"
  }

  /** `IsOwnerOrReadOnly.has_object_permission` for a request with HTTP method `verb` on a grievance whose author
      is `owner` (None for an anonymous report). */
  function HasObjectPermission(verb: string, owner: Option<UserId>, requester: Requester): (allowed: bool)
    ensures IsSafeMethod(verb) ==> allowed
    ensures !IsSafeMethod(verb) ==> (allowed <==> owner.Some? && requester == Member(owner.value))
  {
    if IsSafeMethod(verb) then true
    else owner.Some? && requester.Member? && requester.id == owner.value
  }

  /** Nobody may change an anonymous grievance. */
  lemma AnonymousGrievanceIsReadOnly(verb: string, requester: Requester)
    ensures HasObjectPermission(verb, None, requester) <==> IsSafeMethod(verb)
  {
  }

  /** For writes the decision depends on who asks, not on which write. */
  lemma WriteDecisionIgnoresMethod(m1: string, m2: string, owner: Option<UserId>, requester: Requester)
    requires !IsSafeMethod(m1) && !IsSafeMethod(m2)
    ensures HasObjectPermission(m1, owner, requester) == HasObjectPermission(m2, owner, requester)
  {
  }

  /** An anonymous requester may only read. */
  lemma AnonymousRequesterOnlyReads(verb: string, owner: Option<UserId>)
    ensures HasObjectPermission(verb, owner, Anonymous) <==> IsSafeMethod(verb)
  {
  }
}
