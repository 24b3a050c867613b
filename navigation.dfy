/**
 * The top navigation bar: the signed-in user's name and initials, which link
 * is highlighted, the profile link's target, sign-out, and whether the
 * profile editor is open.
 */
module Navigation {
  import opened Wrappers
  import opened Text
  import opened Types
  import opened Effects
  import UseAuth

  /** `firstName lastName` when both are set, else `User`. */
  function UserName(user: Option<User>): (r: string)
    ensures r != ""
    ensures user.Some? && HasFullName(user.value) ==> r == FullName(user.value)
    ensures !(user.Some? && HasFullName(user.value)) ==> r == "User"
  {
    if user.Some? && HasFullName(user.value) then FullName(user.value) else "User"
  }

  /** The two first letters when both names are set, else `U`. */
  function UserInitials(user: Option<User>): (r: string)
    ensures user.Some? && HasFullName(user.value) ==> r == Initials(user.value)
    ensures !(user.Some? && HasFullName(user.value)) ==> r == "U"
  {
    if user.Some? && HasFullName(user.value) then Initials(user.value) else "U"
  }

  /** When a name is shown, the initials are the first letters of its two words. */
  lemma InitialsMatchName(user: Option<User>)
    requires user.Some? && HasFullName(user.value)
    ensures var n, f := UserName(user), user.value.firstName.value;
      UserInitials(user) == [n[0], n[|f| + 1]] && n[|f|] == ' '
  {
  }

  /** Home is highlighted only on `/`. */
  predicate HomeActive(location: string) {
    location == "/"
  }

  /** Profile is highlighted on every location under `/profile`. */
  predicate ProfileActive(location: string) {
    StartsWith(location, "/profile")
  }

  /** At most one link is highlighted, and following the profile link highlights Profile. */
  lemma ActiveLinks(location: string, user: Option<User>)
    ensures !(HomeActive(location) && ProfileActive(location))
    ensures ProfileActive(ProfilePath(user)) && !HomeActive(ProfilePath(user))
  {
    var p := ProfilePath(user);
    assert p[..8] == "/profile";
  }

  /** Sign Out: an immediate full-page navigation to the logout entry point. */
  function SignOutEffects(): (effects: seq<Effect>)
    ensures effects == [Navigate(LogoutPath)]
  {
    [Navigate(LogoutPath)]
  }

  /** The bar's own state: whether the profile editor is open. */
  class NavigationState {
    var showProfileModal: bool

    constructor ()
      ensures !showProfileModal
    {
      showProfileModal := false;
    }

    /** The Edit Profile menu item. */
    method EditProfile()
      modifies this
      ensures showProfileModal
    {
      showProfileModal := true;
    }

    /** The `onClose` the bar hands to the profile editor. */
    method CloseProfileModal()
      modifies this
      ensures !showProfileModal
    {
      showProfileModal := false;
    }
  }

  /** The auth hook's user carries no first or last name, so the bar always shows `User` and `U` for it. */
  lemma AuthUserShownAsFallback(fu: AuthUser, now: string)
    ensures UserName(Some(UseAuth.ToAppUser(fu, now))) == "User"
    ensures UserInitials(Some(UseAuth.ToAppUser(fu, now))) == "U"
  {
  }
}
