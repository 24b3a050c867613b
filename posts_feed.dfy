/**
 * The post feed: what it renders while loading, when empty and per post, and
 * the like mutation with its handlers.
 */
module PostsFeed {
  import opened Wrappers
  import opened Text
  import opened Types
  import opened QueryClient
  import opened Effects

  const LikeFailure: string := "Failed to update like. Please try again."
  const PlaceholderCount: nat := 3

  /** `${firstName || ''} ${lastName || ''}` before trimming. */
  function RawAuthorName(a: User): string {
    a.firstName.GetOr("") + " " + a.lastName.GetOr("")
  }

  /**
   * The author line: `Anonymous User` without an author or when the names
   * trim to nothing, otherwise the trimmed `first last`. Never empty.
   */
  function AuthorName(author: Option<User>): (r: string)
    ensures r != ""
    ensures author.None? ==> r == AnonymousName
    ensures author.Some? && AllWhitespace(RawAuthorName(author.value)) ==> r == AnonymousName
    ensures author.Some? && !AllWhitespace(RawAuthorName(author.value)) ==> r == Trim(RawAuthorName(author.value))
  {
    match author
    case None => AnonymousName
    case Some(a) =>
      TrimEmptyIff(RawAuthorName(a));
      var t := Trim(RawAuthorName(a));
      if t != "" then t else AnonymousName
  }

  /** An author whose names are set and carry no outer whitespace is shown by exactly `first last`. */
  lemma AuthorNameOfCleanNames(a: User)
    requires HasFullName(a)
    requires !IsWhitespace(a.firstName.value[0]) && !IsWhitespace(a.lastName.value[|a.lastName.value| - 1])
    ensures AuthorName(Some(a)) == FullName(a)
  {
    var n := RawAuthorName(a);
    assert n == FullName(a);
    assert n[0] == a.firstName.value[0] && n[|n| - 1] == a.lastName.value[|a.lastName.value| - 1];
    TrimOfTrimmed(n);
  }

  /** The upper-cased first letters when both names are set, else `AU`. */
  function AuthorInitials(author: Option<User>): (r: string)
    ensures |r| == 2
    ensures author.Some? && HasFullName(author.value) ==>
      r == [AsciiUpper(author.value.firstName.value[0]), AsciiUpper(author.value.lastName.value[0])]
    ensures !(author.Some? && HasFullName(author.value)) ==> r == "AU"
  {
    if author.Some? && HasFullName(author.value) then
      var i := Initials(author.value);
      [AsciiUpper(i[0]), AsciiUpper(i[1])]
    else
      "AU"
  }

  /** `/api/posts/${postId}/like` */
  function LikeEndpoint(postId: int): (e: string)
    ensures StartsWith(e, "/api/posts/") && |e| == 16 + |IntToString(postId)|
    ensures e[11..|e| - 5] == IntToString(postId) && e[|e| - 5..] == "/like"
  {
    var e := "/api/posts/" + IntToString(postId) + "/like";
    assert e[..11] == "/api/posts/";
    e
  }

  /** Different posts are liked through different endpoints. */
  lemma LikeEndpointInjective(a: int, b: int)
    ensures LikeEndpoint(a) == LikeEndpoint(b) ==> a == b
  {
    if LikeEndpoint(a) == LikeEndpoint(b) {
      IntToStringInjective(a, b);
    }
  }

  /** Liking a post: a POST to its like endpoint with no payload. */
  function LikeEffects(postId: int): (effects: seq<Effect>)
    ensures effects == [Mutate("POST", LikeEndpoint(postId), None)]
  {
    [Mutate("POST", LikeEndpoint(postId), None)]
  }

  /** The like mutation's `onSuccess`: only the feed is refreshed. */
  function LikeSuccessEffects(): (effects: seq<Effect>)
    ensures effects == [Invalidate(PostsKey)]
  {
    [Invalidate(PostsKey)]
  }

  /** The like mutation's `onError`: unauthorized recovery or the like-failure notice, never both. */
  function LikeErrorEffects(unauthorized: bool): (effects: seq<Effect>)
    ensures unauthorized ==> effects == UnauthorizedRecovery
    ensures !unauthorized ==> effects == [Toast(ErrorNotice(LikeFailure))]
    ensures !(Redirects(effects) && Shows(effects, ErrorNotice(LikeFailure)))
  {
    MutationErrorEffects(unauthorized, LikeFailure)
  }

  /** One rendered post. Dates are not modelled. */
  datatype PostCard = PostCard(
    postId: int,
    authorName: string,
    authorInitials: string,
    profileLink: string,
    authorEmail: Option<string>,
    content: string,
    likeCount: int,
    likeDisabled: bool)

  function Card(p: Post, likePending: bool): (c: PostCard)
    ensures c.authorName == AuthorName(p.author) && c.authorName != ""
    ensures c.authorInitials == AuthorInitials(p.author) && |c.authorInitials| == 2
    ensures c.profileLink == ProfilePath(p.author)
    ensures p.author.Some? ==> c.authorEmail == Some(p.author.value.email)
    ensures p.author.None? ==> c.authorEmail.None?
    ensures c.likeDisabled == likePending && c.postId == p.id && c.content == p.content
    ensures c.likeCount == p.count.likes
  {
    PostCard(
      p.id,
      AuthorName(p.author),
      AuthorInitials(p.author),
      ProfilePath(p.author),
      if p.author.Some? then Some(p.author.value.email) else None,
      p.content,
      p.count.likes,
      likePending)
  }

  datatype FeedView = Placeholders(count: nat) | EmptyFeed | Cards(cards: seq<PostCard>)

  /**
   * The feed: three placeholder cards while loading, the empty state when
   * there are no posts (no data counts as none), else one card per post in
   * order, each like button disabled while any like is pending.
   */
  function Feed(isLoading: bool, data: Option<seq<Post>>, likePending: bool): (v: FeedView)
    ensures isLoading ==> v == Placeholders(PlaceholderCount)
    ensures !isLoading && data.GetOr([]) == [] ==> v == EmptyFeed
    ensures !isLoading && data.GetOr([]) != [] ==>
      && v.Cards? && |v.cards| == |data.value|
      && forall i :: 0 <= i < |v.cards| ==> v.cards[i] == Card(data.value[i], likePending)
    ensures v.Cards? ==> forall i :: 0 <= i < |v.cards| ==> v.cards[i].likeDisabled == likePending
  {
    var posts := data.GetOr([]);
    if isLoading then Placeholders(PlaceholderCount)
    else if |posts| == 0 then EmptyFeed
    else Cards(seq(|posts|, i requires 0 <= i < |posts| => Card(posts[i], likePending)))
  }

  /** A feed query that settled without data, for instance after an error, shows the empty state. */
  lemma NoDataShowsEmptyState(likePending: bool)
    ensures Feed(false, None, likePending) == EmptyFeed
  {
  }
}
