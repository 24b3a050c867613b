/**
 * The sidebar card with the signed-in user's name, initials, bio, post count
 * and membership date.
 */
module UserProfileSidebar {
  import opened Wrappers
  import opened Types
  import opened QueryClient
  import UseAuth

  /** `enabled: !!user?.id` */
  predicate PostsQueryEnabled(user: Option<User>) {
    user.Some? && user.value.id != ""
  }

  /** `["/api/posts/user", user?.id]` */
  function UserPostsQueryKey(user: Option<User>): (key: QueryKey)
    ensures user.Some? ==> key == [Segment(UserPostsResource), Segment(user.value.id)]
    ensures user.None? ==> key == [Segment(UserPostsResource), Undefined]
    ensures KeyMatches(UserPostsKey, key)
  {
    var key := [Segment(UserPostsResource), if user.Some? then Segment(user.value.id) else Undefined];
    assert key[..1] == UserPostsKey;
    key
  }

  /** "Member since": the year of `createdAt` (date handling is not modelled), or `Recently` without one. */
  datatype MemberSince = Recently | YearOf(createdAt: string)

  datatype SidebarView = SidebarView(
    userName: string,
    initials: string,
    email: string,
    bio: Option<string>,
    postCount: nat,
    memberSince: MemberSince)

  /**
   * The sidebar: nothing without a user; otherwise the name and initials
   * with their `Anonymous User` and `AU` fallbacks, the bio only when it is
   * not empty, the number of fetched posts (none when there is no data) and
   * `Recently` when `createdAt` is not set.
   */
  function Sidebar(user: Option<User>, postsData: Option<seq<Post>>): (v: Option<SidebarView>)
    ensures v.None? <==> user.None?
    ensures v.Some? && HasFullName(user.value) ==> v.value.userName == FullName(user.value) && v.value.initials == Initials(user.value)
    ensures v.Some? && !HasFullName(user.value) ==> v.value.userName == AnonymousName && v.value.initials == "AU"
    ensures v.Some? ==> (v.value.bio.Some? <==> Truthy(user.value.bio))
    ensures v.Some? && v.value.bio.Some? ==> v.value.bio == user.value.bio
    ensures v.Some? ==> v.value.postCount == |postsData.GetOr([])|
    ensures v.Some? ==> (v.value.memberSince == Recently <==> !Truthy(user.value.createdAt))
    ensures v.Some? && v.value.memberSince != Recently ==> v.value.memberSince == YearOf(user.value.createdAt.value)
    ensures v.Some? ==> v.value.email == user.value.email
  {
    match user
    case None => None
    case Some(u) =>
      Some(SidebarView(
        if HasFullName(u) then FullName(u) else AnonymousName,
        if HasFullName(u) then Initials(u) else "AU",
        u.email,
        if Truthy(u.bio) then u.bio else None,
        |postsData.GetOr([])|,
        if Truthy(u.createdAt) then YearOf(u.createdAt.value) else Recently))
  }

  /**
   * For the auth hook's user the sidebar shows the fallbacks, no bio (the
   * hook sets it to the empty string), and a membership year whenever the
   * clock's text is not empty.
   */
  lemma SidebarForAuthUser(fu: AuthUser, now: string, postsData: Option<seq<Post>>)
    ensures var v := Sidebar(Some(UseAuth.ToAppUser(fu, now)), postsData);
      && v.Some? && v.value.userName == AnonymousName && v.value.initials == "AU"
      && v.value.bio.None?
      && (v.value.memberSince == Recently <==> now == "")
      && PostsQueryEnabled(Some(UseAuth.ToAppUser(fu, now))) == (fu.uid != "")
  {
  }
}
