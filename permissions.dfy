/** Who is calling, which HTTP methods are read-only, and the two permission
    rules the API views install: the object-level ownership rule of
    `IsCreatorOrReadOnly` and the admin-only gate of `UserViewSet`. */
module Permissions {
  import opened Options

  /** Primary key of a Django user. */
  type UserId = nat

  /** The request's `user`: Django's anonymous user, or an authenticated user
      given by its primary key and its `is_staff` flag. */
  datatype Caller = Anonymous | User(id: UserId, isStaff: bool)

  predicate IsAuthenticated(caller: Caller) {
    caller.User?
  }

  type HttpMethod = string

  /** The request methods REST framework treats as read-only. */
  const SafeMethods: set<HttpMethod> := {"GET", "HEAD", "OPTIONS"}

  predicate IsSafe(verb: HttpMethod) {
    verb in SafeMethods
  }

  /** `creator == request.user`: Django compares model instances by primary
      key, and the anonymous user equals no stored user. */
  predicate IsCaller(creator: UserId, caller: Caller): (same: bool)
    ensures same <==> caller in {User(creator, false), User(creator, true)}
  {
    caller.User? && caller.id == creator
  }

  /** The creator `perform_create` saves with a new record: the caller when
      it is authenticated, and none otherwise. */
  function CreatorFor(caller: Caller): (creator: Option<UserId>)
    ensures creator.Some? <==> IsAuthenticated(caller)
    ensures creator.Some? ==> IsCaller(creator.value, caller)
  {
    if caller.User? then Some(caller.id) else None
  }

  /** `IsCreatorOrReadOnly.has_object_permission`: read-only methods pass,
      a record without a creator is open to everybody, and otherwise only its
      creator passes. Stated in the contract against the creator stamp of
      `perform_create`: the caller may act exactly when the method is safe,
      the record is unowned, or the caller would have stamped this creator. */
  function Authorize(verb: HttpMethod, caller: Caller, creator: Option<UserId>): (allowed: bool)
    ensures allowed <==> IsSafe(verb) || creator.None? || creator == CreatorFor(caller)
  {
    if IsSafe(verb) then true
    else if creator.None? then true
    else IsCaller(creator.value, caller)
  }

  /** REST framework's `IsAdminUser.has_permission`: the request's user is
      present and carries the staff flag. The anonymous user never does. */
  predicate IsAdminUser(caller: Caller): (admin: bool)
    ensures admin ==> caller != Anonymous
    ensures admin ==> caller == User(caller.id, true)
  {
    caller.User? && caller.isStaff
  }

  /** `UserViewSet` installs `IsAdminUser` for every action: the view-level
      check ignores the method, and the object-level check it inherits from
      `BasePermission` allows everything, so the method plays no part. */
  function UserViewSetAllows(verb: HttpMethod, caller: Caller): (allowed: bool)
    ensures allowed ==> IsAuthenticated(caller)
    ensures allowed ==> caller.isStaff
  {
    IsAdminUser(caller)
  }

  // ---------------------------------------------------------------------
  // Properties of the ownership rule

  /** GET, HEAD and OPTIONS are allowed for every caller and every creator. */
  lemma SafeMethodsAllowedForAll(caller: Caller, creator: Option<UserId>)
    ensures Authorize("GET", caller, creator)
    ensures Authorize("HEAD", caller, creator)
    ensures Authorize("OPTIONS", caller, creator)
  {
  }

  /** The methods that change a record are not read-only, so they reach the
      ownership test. */
  lemma MutatingMethodsAreUnsafe()
    ensures !IsSafe("POST") && !IsSafe("PUT") && !IsSafe("PATCH") && !IsSafe("DELETE")
  {
  }

  /** A record without a creator may be acted on by anybody, with any method,
      including an authenticated user who did not create it. */
  lemma UnownedOpenToAll(verb: HttpMethod, caller: Caller)
    ensures Authorize(verb, caller, None)
  {
  }

  /** On an owned record, an unsafe method is allowed exactly for the owner. */
  lemma OwnedMutableOnlyByOwner(verb: HttpMethod, caller: Caller, owner: UserId)
    requires !IsSafe(verb)
    ensures Authorize(verb, caller, Some(owner)) <==> caller.User? && caller.id == owner
  {
  }

  /** In particular the anonymous user may not change an owned record. */
  lemma AnonymousDeniedOnOwned(verb: HttpMethod, owner: UserId)
    requires !IsSafe(verb)
    ensures !Authorize(verb, Anonymous, Some(owner))
  {
  }

  /** Whoever creates a record passes the ownership rule on it, with any
      method, whether or not it was authenticated. */
  lemma CreatorMayAlwaysAct(verb: HttpMethod, caller: Caller)
    ensures Authorize(verb, caller, CreatorFor(caller))
  {
  }

  /** The decision depends on the caller's identity only through its primary
      key: the staff flag plays no part in the ownership rule. */
  lemma OwnershipIgnoresStaffFlag(verb: HttpMethod, id: UserId, creator: Option<UserId>)
    ensures Authorize(verb, User(id, true), creator) == Authorize(verb, User(id, false), creator)
  {
  }

  // ---------------------------------------------------------------------
  // Properties of the user administration gate

  /** Every user action, reads included, is allowed exactly for an
      authenticated staff caller. */
  lemma UserViewSetAdminOnly(verb: HttpMethod, caller: Caller)
    ensures UserViewSetAllows(verb, caller) <==> IsAuthenticated(caller) && caller.isStaff
  {
  }

  /** The gate is stricter than the ownership rule: safe methods give no
      exemption, and neither does the anonymous user. */
  lemma UserViewSetDeniesReads(caller: Caller)
    requires !IsAdminUser(caller)
    ensures !UserViewSetAllows("GET", caller) && !UserViewSetAllows("HEAD", caller)
    ensures !UserViewSetAllows("OPTIONS", caller)
    ensures Authorize("GET", caller, None)
  {
  }
}
