/**
 * The auth hook: the provider user and the loading flag it keeps, the
 * subscription to the provider's auth-state changes, and the application user
 * it derives from the provider user.
 */
module UseAuth {
  import opened Wrappers
  import opened Types

  /**
   * The application user built from the provider's user. `now` stands for
   * `new Date().toISOString()`. The record carries no `firstName` or `lastName`.
   */
  function ToAppUser(fu: AuthUser, now: string): (u: User)
    ensures u.id == fu.uid
    ensures u.email == fu.email.GetOr("")
    ensures Truthy(fu.displayName) ==> u.name == fu.displayName.value
    ensures !Truthy(fu.displayName) ==> u.name == "User"
    ensures u.name != ""
    ensures u.profileImageUrl == Some(fu.photoURL.GetOr(""))
    ensures u.bio == Some("") && !Truthy(u.bio)
    ensures u.createdAt == Some(now) && u.updatedAt == Some(now)
    ensures u.firstName.None? && u.lastName.None? && !HasFullName(u)
  {
    User(
      id := fu.uid,
      email := fu.email.GetOr(""),
      name := if Truthy(fu.displayName) then fu.displayName.value else "User",
      profileImageUrl := Some(fu.photoURL.GetOr("")),
      bio := Some(""),
      createdAt := Some(now),
      updatedAt := Some(now),
      firstName := None,
      lastName := None)
  }

  /** One mounted instance of the hook. */
  class AuthHook {
    /** The provider user last delivered, `null` before the first delivery. */
    var firebaseUser: Option<AuthUser>
    var isLoading: bool
    /** Whether the auth-state listener registered on mount is still registered. */
    var subscribed: bool
    /** How many auth-state callbacks this instance has received. */
    ghost var deliveries: nat

    /** `isLoading` is true exactly until the first callback. */
    ghost predicate Valid()
      reads this
    {
      isLoading <==> deliveries == 0
    }

    constructor ()
      ensures Valid()
      ensures firebaseUser.None? && isLoading && !subscribed && deliveries == 0
    {
      firebaseUser := None;
      isLoading := true;
      subscribed := false;
      deliveries := 0;
    }

    /** The mount effect: register the auth-state listener. */
    method Mount()
      requires Valid() && !subscribed
      modifies this
      ensures Valid() && subscribed
      ensures firebaseUser == old(firebaseUser) && isLoading == old(isLoading) && deliveries == old(deliveries)
    {
      subscribed := true;
    }

    /** The listener: store the delivered user (a sign-in or a sign-out) and stop loading. */
    method AuthStateChanged(delivered: Option<AuthUser>)
      requires Valid() && subscribed
      modifies this
      ensures Valid() && subscribed
      ensures firebaseUser == delivered && !isLoading
      ensures deliveries == old(deliveries) + 1
    {
      firebaseUser := delivered;
      isLoading := false;
      deliveries := deliveries + 1;
    }

    /** The effect's cleanup on teardown: release the listener. */
    method Unmount()
      requires Valid() && subscribed
      modifies this
      ensures Valid() && !subscribed
      ensures firebaseUser == old(firebaseUser) && isLoading == old(isLoading) && deliveries == old(deliveries)
    {
      subscribed := false;
    }

    /** The hook's `user`: null exactly when there is no provider user. */
    function AppUser(now: string): (u: Option<User>)
      reads this
      ensures u.None? <==> firebaseUser.None?
      ensures u.Some? ==> u.value == ToAppUser(firebaseUser.value, now)
    {
      match firebaseUser
      case None => None
      case Some(fu) => Some(ToAppUser(fu, now))
    }

    /** `isAuthenticated: !!user` */
    function IsAuthenticated(now: string): (b: bool)
      reads this
      ensures b <==> firebaseUser.Some?
      ensures b <==> AppUser(now).Some?
    {
      AppUser(now).Some?
    }
  }
}
