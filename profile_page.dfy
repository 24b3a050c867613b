/**
 * The profile page: whose profile to show, whether it is the viewer's own,
 * when its two queries run, the redirect for signed-out viewers, and what it
 * renders.
 */
module ProfilePage {
  import opened Wrappers
  import opened Text
  import opened Types
  import opened QueryClient
  import opened Effects
  import UseAuth
  import ProfileEditModal

  const OwnHeading: string := "Your Posts"
  const OwnEmptyMessage: string := "You haven't posted anything yet."
  const OtherEmptyMessage: string := "No posts to show."

  /** `userId || currentUser?.id`: the route's id when it is set, else the viewer's. */
  function ProfileUserId(routeUserId: Option<string>, currentUser: Option<User>): (id: Option<string>)
    ensures Truthy(routeUserId) ==> id == routeUserId
    ensures !Truthy(routeUserId) && currentUser.Some? ==> id == Some(currentUser.value.id)
    ensures !Truthy(routeUserId) && currentUser.None? ==> id.None?
  {
    if Truthy(routeUserId) then routeUserId
    else if currentUser.Some? then Some(currentUser.value.id)
    else None
  }

  /** `!userId || userId === currentUser?.id` */
  predicate IsOwnProfile(routeUserId: Option<string>, currentUser: Option<User>) {
    !Truthy(routeUserId) || (currentUser.Some? && routeUserId.value == currentUser.value.id)
  }

  /** For a signed-in viewer, the profile is their own exactly when the id it shows is theirs. */
  lemma OwnProfileIsViewersId(routeUserId: Option<string>, currentUser: Option<User>)
    requires currentUser.Some?
    ensures IsOwnProfile(routeUserId, currentUser) <==> ProfileUserId(routeUserId, currentUser) == Some(currentUser.value.id)
  {
  }

  /** `enabled: !!profileUserId && isAuthenticated`, the same for both queries. */
  predicate QueriesEnabled(profileUserId: Option<string>, isAuthenticated: bool) {
    Truthy(profileUserId) && isAuthenticated
  }

  function IdPart(id: Option<string>): KeyPart {
    if id.Some? then Segment(id.value) else Undefined
  }

  /** `[resource, profileUserId]`: the key of the profile query (`UsersResource`) and of the posts query (`UserPostsResource`). */
  function ProfileQueryKey(resource: string, profileUserId: Option<string>): (key: QueryKey)
    ensures |key| == 2 && key[0] == Segment(resource)
    ensures key[1] == Undefined <==> profileUserId.None?
    ensures profileUserId.Some? ==> key[1] == Segment(profileUserId.value)
  {
    [Segment(resource), IdPart(profileUserId)]
  }

  /**
   * Publishing a post refreshes the page's posts query, whose key the
   * composer's `["/api/posts/user"]` filter prefixes; the feed's
   * `["/api/posts"]` filter does not match it.
   */
  lemma PublishRefreshesProfilePosts(profileUserId: Option<string>)
    ensures KeyMatches(UserPostsKey, ProfileQueryKey(UserPostsResource, profileUserId))
    ensures !KeyMatches(PostsKey, ProfileQueryKey(UserPostsResource, profileUserId))
  {
    var key := ProfileQueryKey(UserPostsResource, profileUserId);
    assert key[..1] == UserPostsKey;
    assert key[..1] != PostsKey by {
      assert |key[0].text| != |PostsKey[0].text|;
    }
  }

  /**
   * Saving the profile editor refreshes only `["/api/auth/user"]`, which
   * does not match the page's profile query, so with `staleTime: Infinity`
   * the page goes on showing the cached profile.
   */
  lemma ProfileSaveLeavesProfileQuery(profileUserId: Option<string>)
    ensures !KeyMatches(ProfileEditModal.AuthUserKey, ProfileQueryKey(UsersResource, profileUserId))
    ensures !KeyMatches(ProfileEditModal.AuthUserKey, ProfileQueryKey(UserPostsResource, profileUserId))
  {
    var a := ProfileQueryKey(UsersResource, profileUserId);
    var b := ProfileQueryKey(UserPostsResource, profileUserId);
    assert |a[0].text| != |ProfileEditModal.AuthUserKey[0].text|;
    assert b[0].text[5] != ProfileEditModal.AuthUserKey[0].text[5];
  }

  /** An enabled profile query fetches `/api/users/<id>` from the base URL. */
  lemma EnabledUserQueryUrl(configuredBase: string, profileUserId: Option<string>, isAuthenticated: bool)
    requires QueriesEnabled(profileUserId, isAuthenticated)
    ensures QueryRequest(configuredBase, ProfileQueryKey(UsersResource, profileUserId)).url == BaseUrl(configuredBase) + "/api/users/" + profileUserId.value
  {
    var key := ProfileQueryKey(UsersResource, profileUserId);
    assert key == [Segment(UsersResource)] + [Segment(profileUserId.value)];
    KeyPathSnoc([Segment(UsersResource)], Segment(profileUserId.value));
    assert KeyPath(key)[0] == '/';
  }

  /** The redirect effect: the unauthorized notice and the delayed login redirect once auth has settled without a user. */
  function RedirectEffects(authLoading: bool, isAuthenticated: bool): (effects: seq<Effect>)
    ensures Redirects(effects) <==> !authLoading && !isAuthenticated
    ensures !authLoading && !isAuthenticated ==> effects == UnauthorizedRecovery
    ensures authLoading || isAuthenticated ==> effects == []
  {
    if !authLoading && !isAuthenticated then
      assert UnauthorizedRecovery[1].Redirect?;
      UnauthorizedRecovery
    else []
  }

  /** `displayUser?.firstName && displayUser?.lastName ? "first last" : "Anonymous User"` */
  function DisplayName(u: Option<User>): (r: string)
    ensures u.Some? && HasFullName(u.value) ==> r == FullName(u.value)
    ensures !(u.Some? && HasFullName(u.value)) ==> r == AnonymousName
  {
    if u.Some? && HasFullName(u.value) then FullName(u.value) else AnonymousName
  }

  function DisplayInitials(u: Option<User>): (r: string)
    ensures |r| == 2
    ensures u.Some? && HasFullName(u.value) ==> r == Initials(u.value)
    ensures !(u.Some? && HasFullName(u.value)) ==> r == "AU"
  {
    if u.Some? && HasFullName(u.value) then Initials(u.value) else "AU"
  }

  /** The posts heading: `Your Posts` on one's own profile, else `<name>'s Posts`. */
  function PostsHeading(own: bool, userName: string): (h: string)
    ensures h == OwnHeading <==> own
    ensures !own ==> h == userName + "'s Posts"
  {
    if own then OwnHeading
    else
      var h := userName + "'s Posts";
      assert h[|h| - 8] == '\'';
      h
  }

  /** One post as the profile page lists it: under the page's name and initials, not its own author's. Dates are not modelled. */
  datatype PostEntry = PostEntry(postId: int, authorName: string, authorInitials: string, content: string, likeCount: int)

  datatype PostsSection = LoadingPosts | NoPosts(message: string) | PostList(entries: seq<PostEntry>)

  datatype ProfileView = ProfileView(
    userName: string,
    initials: string,
    email: Option<string>,
    bio: Option<string>,
    postCount: nat,
    heading: string,
    section: PostsSection)

  datatype ProfileScreen = Spinner | Blank | Page(view: ProfileView)

  /** The header and posts section for the user shown. */
  function PageView(own: bool, displayUser: Option<User>, postsLoading: bool, posts: seq<Post>): (v: ProfileView)
    ensures v.userName == DisplayName(displayUser) && v.initials == DisplayInitials(displayUser)
    ensures v.postCount == |posts|
    ensures v.heading == OwnHeading <==> own
    ensures v.heading == PostsHeading(own, v.userName)
    ensures v.email == (if displayUser.Some? then Some(displayUser.value.email) else None)
    ensures v.bio.Some? <==> displayUser.Some? && Truthy(displayUser.value.bio)
    ensures v.bio.Some? ==> v.bio == displayUser.value.bio
    ensures postsLoading ==> v.section == LoadingPosts
    ensures !postsLoading && posts == [] && own ==> v.section == NoPosts(OwnEmptyMessage)
    ensures !postsLoading && posts == [] && !own ==> v.section == NoPosts(OtherEmptyMessage)
    ensures !postsLoading && posts != [] ==>
      && v.section.PostList? && |v.section.entries| == |posts|
      && forall i :: 0 <= i < |posts| ==>
        v.section.entries[i] == PostEntry(posts[i].id, v.userName, v.initials, posts[i].content, posts[i].count.likes)
  {
    var name := DisplayName(displayUser);
    var initials := DisplayInitials(displayUser);
    ProfileView(
      name,
      initials,
      if displayUser.Some? then Some(displayUser.value.email) else None,
      if displayUser.Some? && Truthy(displayUser.value.bio) then displayUser.value.bio else None,
      |posts|,
      PostsHeading(own, name),
      if postsLoading then LoadingPosts
      else if posts == [] then NoPosts(if own then OwnEmptyMessage else OtherEmptyMessage)
      else PostList(seq(|posts|, i requires 0 <= i < |posts| =>
        PostEntry(posts[i].id, name, initials, posts[i].content, posts[i].count.likes))))
  }

  /**
   * What the page renders, in order: the spinner while auth or the profile
   * is loading, nothing for a signed-out viewer, else the page for the
   * fetched profile or, without one, the viewer; posts default to none.
   */
  function Screen(routeUserId: Option<string>, currentUser: Option<User>, authLoading: bool, isAuthenticated: bool,
                  userLoading: bool, profileUser: Option<User>, postsLoading: bool, postsData: Option<seq<Post>>): (s: ProfileScreen)
    ensures authLoading || userLoading ==> s == Spinner
    ensures !authLoading && !userLoading && !isAuthenticated ==> s == Blank
    ensures !authLoading && !userLoading && isAuthenticated ==>
      s == Page(PageView(IsOwnProfile(routeUserId, currentUser),
                         if profileUser.Some? then profileUser else currentUser,
                         postsLoading, postsData.GetOr([])))
  {
    if authLoading || userLoading then Spinner
    else if !isAuthenticated then Blank
    else
      var displayUser := if profileUser.Some? then profileUser else currentUser;
      Page(PageView(IsOwnProfile(routeUserId, currentUser), displayUser, postsLoading, postsData.GetOr([])))
  }

  /**
   * Viewing one's own page with the auth hook's user and no fetched profile
   * shows `Anonymous User`, `AU`, no bio and "Your Posts".
   */
  lemma OwnPageFromAuthUser(fu: AuthUser, now: string, postsData: Option<seq<Post>>)
    ensures var me := Some(UseAuth.ToAppUser(fu, now));
      var s := Screen(None, me, false, true, false, None, false, postsData);
      && s.Page?
      && s.view.userName == AnonymousName && s.view.initials == "AU" && s.view.bio.None?
      && s.view.heading == OwnHeading && s.view.postCount == |postsData.GetOr([])|
  {
  }
}
