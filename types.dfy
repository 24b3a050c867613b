/**
 * The client's record types and its three zod validation schemas.
 * Optional fields (`?:`, `| null`) are `Option`s; dates are the strings the API
 * and the auth hook deliver.
 */
module Types {
  import opened Wrappers

  /**
   * An application user. `firstName` and `lastName` are not declared by the
   * `User` interface, yet every component reads them; they are modelled as
   * optional strings that the API may or may not deliver.
   */
  datatype User = User(
    id: string,
    email: string,
    name: string,
    profileImageUrl: Option<string>,
    bio: Option<string>,
    createdAt: Option<string>,
    updatedAt: Option<string>,
    firstName: Option<string>,
    lastName: Option<string>)

  datatype Like = Like(id: int, postId: int, userId: string, createdAt: Option<string>, user: Option<User>)

  datatype Comment = Comment(
    id: int, content: string, postId: int, authorId: string,
    createdAt: Option<string>, updatedAt: Option<string>, author: Option<User>)

  datatype Follow = Follow(
    id: int, followerId: string, followingId: string, createdAt: Option<string>,
    follower: Option<User>, following: Option<User>)

  datatype Counts = Counts(likes: int, comments: int)

  /**
   * A feed post as the API returns it (`PostWithDetails`). The interface makes
   * `author` mandatory, but the feed still tests for it, so it stays optional here.
   */
  datatype Post = Post(
    id: int,
    content: string,
    authorId: string,
    createdAt: Option<string>,
    updatedAt: Option<string>,
    author: Option<User>,
    likes: Option<seq<Like>>,
    comments: Option<seq<Comment>>,
    count: Counts,
    isLiked: Option<bool>)

  /** The generic API envelope. */
  datatype ApiResponse<T> = ApiResponse(data: Option<T>, message: Option<string>, error: Option<string>)

  /** Form payloads. */
  datatype CreatePostData = CreatePostData(content: string)
  datatype UpdateProfileData = UpdateProfileData(name: Option<string>, bio: Option<string>, profileImageUrl: Option<string>)
  /** A comment's `postId` is a JavaScript number, hence a real. */
  datatype CreateCommentData = CreateCommentData(content: string, postId: real)

  /** The identity provider's user record. */
  datatype AuthUser = AuthUser(uid: string, email: Option<string>, displayName: Option<string>, photoURL: Option<string>)

  /** The name the feed, the profile page and the sidebar show for a user without both names. */
  const AnonymousName: string := "Anonymous User"

  /** JavaScript truthiness of an optional string: present and not empty. */
  predicate Truthy(s: Option<string>) {
    s.Some? && s.value != ""
  }

  /** The test `u.firstName && u.lastName` the components use before showing a name. */
  predicate HasFullName(u: User) {
    Truthy(u.firstName) && Truthy(u.lastName)
  }

  /** `${firstName} ${lastName}` */
  function FullName(u: User): (r: string)
    requires HasFullName(u)
    ensures |r| == |u.firstName.value| + 1 + |u.lastName.value|
    ensures r[..|u.firstName.value|] == u.firstName.value && r[|u.firstName.value|] == ' '
    ensures r[|u.firstName.value| + 1..] == u.lastName.value
  {
    u.firstName.value + " " + u.lastName.value
  }

  /** `${firstName[0]}${lastName[0]}` */
  function Initials(u: User): (r: string)
    requires HasFullName(u)
    ensures |r| == 2
    ensures r[0] == FullName(u)[0] && r[1] == FullName(u)[|u.firstName.value| + 1]
  {
    [u.firstName.value[0], u.lastName.value[0]]
  }

  /** `/profile/${user?.id}`: a missing user gives the text `undefined`. */
  function ProfilePath(user: Option<User>): (path: string)
    ensures user.Some? ==> path == "/profile/" + user.value.id
    ensures user.None? ==> path == "/profile/undefined"
  {
    "/profile/" + (if user.Some? then user.value.id else "undefined")
  }

  /** One failed zod check: which field, which rule, and the custom message when the schema gives one. */
  datatype Issue =
    | TooShort(field: string, minimum: nat, message: Option<string>)
    | TooLong(field: string, maximum: nat, message: Option<string>)
    | NotUrl(field: string)
    | NotInteger(field: string)
    | NotPositive(field: string)

  /** zod's `min(min, message)` and `max(max, message)` on a string, in declaration order. */
  function LengthIssues(field: string, s: string, min: nat, minMessage: Option<string>, max: nat, maxMessage: Option<string>): (issues: seq<Issue>)
    ensures issues == [] <==> min <= |s| <= max
  {
    (if |s| < min then [TooShort(field, min, minMessage)] else [])
    + (if |s| > max then [TooLong(field, max, maxMessage)] else [])
  }

  const PostContentMax: nat := 2000
  const ProfileNameMax: nat := 255
  const ProfileBioMax: nat := 1000
  const CommentContentMax: nat := 1000

  /** `createPostSchema` */
  function CreatePostIssues(d: CreatePostData): (issues: seq<Issue>)
    ensures issues == [] <==> 1 <= |d.content| <= PostContentMax
    ensures |issues| <= 1
  {
    LengthIssues("content", d.content,
      1, Some("Content is required"),
      PostContentMax, Some("Content must be less than 2000 characters"))
  }

  /** `updateProfileSchema`; zod's `url()` test is the parameter `isUrl`. */
  function UpdateProfileIssues(d: UpdateProfileData, isUrl: string -> bool): (issues: seq<Issue>)
    ensures issues == [] <==>
      && (d.name.Some? ==> 1 <= |d.name.value| <= ProfileNameMax)
      && (d.bio.Some? ==> |d.bio.value| <= ProfileBioMax)
      && (d.profileImageUrl.Some? ==> isUrl(d.profileImageUrl.value))
  {
    (if d.name.Some? then LengthIssues("name", d.name.value, 1, None, ProfileNameMax, None) else [])
    + (if d.bio.Some? then LengthIssues("bio", d.bio.value, 0, None, ProfileBioMax, None) else [])
    + (if d.profileImageUrl.Some? && !isUrl(d.profileImageUrl.value) then [NotUrl("profileImageUrl")] else [])
  }

  /** Every field of `updateProfileSchema` is optional, so the empty object passes. */
  lemma EmptyProfileUpdateAccepted(isUrl: string -> bool)
    ensures UpdateProfileIssues(UpdateProfileData(None, None, None), isUrl) == []
  {
  }

  /** JavaScript's `Number.isInteger` on a finite number. */
  predicate IsInteger(x: real) {
    x.Floor as real == x
  }

  /** `createCommentSchema` */
  function CreateCommentIssues(d: CreateCommentData): (issues: seq<Issue>)
    ensures issues == [] <==> 1 <= |d.content| <= CommentContentMax && IsInteger(d.postId) && d.postId > 0.0
  {
    LengthIssues("content", d.content,
      1, Some("Comment is required"),
      CommentContentMax, Some("Comment must be less than 1000 characters"))
    + (if !IsInteger(d.postId) then [NotInteger("postId")] else [])
    + (if d.postId <= 0.0 then [NotPositive("postId")] else [])
  }
}
