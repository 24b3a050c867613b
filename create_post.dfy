/**
 * The post composer: its `content` state, the submit guard and payload, the
 * create mutation's success and error handlers, and what it renders.
 */
module CreatePost {
  import opened Wrappers
  import opened Text
  import opened Types
  import opened QueryClient
  import opened Effects

  const PostsEndpoint: string := "/api/posts"
  const EmptyContentNotice: Notice := ErrorNotice("Post content cannot be empty.")
  const PublishedNotice: Notice := SuccessNotice("Your post has been published!")
  const CreateFailure: string := "Failed to create post. Please try again."
  /** The text area's `maxLength`. */
  const ContentMaxLength: nat := 5000

  /** The composer's state: the text typed so far. */
  class CreatePostForm {
    var content: string

    constructor ()
      ensures content == ""
    {
      content := "";
    }

    /** The text area's `onChange`. */
    method Change(value: string)
      modifies this
      ensures content == value
    {
      content := value;
    }

    /** The create mutation's `onSuccess`: clear the text, refresh both post lists, confirm. */
    method OnSuccess() returns (effects: seq<Effect>)
      modifies this
      ensures content == ""
      ensures effects == [Invalidate(PostsKey), Invalidate(UserPostsKey), Toast(PublishedNotice)]
    {
      content := "";
      effects := [Invalidate(PostsKey), Invalidate(UserPostsKey), Toast(PublishedNotice)];
    }
  }

  /**
   * The payload `handleSubmit` sends for `content`: none when it is only
   * whitespace, else its trimmed text, which is non-empty, neither starts nor
   * ends with whitespace, and is what `content` holds between a whitespace
   * prefix and a whitespace suffix.
   */
  function SubmitPayload(content: string): (p: Option<CreatePostData>)
    ensures p.None? <==> AllWhitespace(content)
    ensures p.Some? ==>
      var c, k := p.value.content, LeadingWhitespace(content);
      && c != [] && !IsWhitespace(c[0]) && !IsWhitespace(c[|c| - 1])
      && k + |c| <= |content| && c == content[k..k + |c|]
      && AllWhitespace(content[..k]) && AllWhitespace(content[k + |c|..])
  {
    TrimEmptyIff(content);
    TrimIsSlice(content);
    var t := Trim(content);
    if t == [] then None else Some(CreatePostData(t))
  }

  /** `handleSubmit`: only the empty-content notice for whitespace, else exactly the create request. */
  function SubmitEffects(content: string): (effects: seq<Effect>)
    ensures AllWhitespace(content) ==> effects == [Toast(EmptyContentNotice)]
    ensures !AllWhitespace(content) ==>
      effects == [Mutate("POST", PostsEndpoint, Some(CreatePostBody(SubmitPayload(content).value)))]
  {
    match SubmitPayload(content)
    case None => [Toast(EmptyContentNotice)]
    case Some(p) => [Mutate("POST", PostsEndpoint, Some(CreatePostBody(p)))]
  }

  /** The submit button's `disabled`: a create is pending or the trimmed text is empty. */
  function SubmitDisabled(isPending: bool, content: string): (disabled: bool)
    ensures disabled <==> isPending || AllWhitespace(content)
  {
    TrimEmptyIff(content);
    isPending || Trim(content) == []
  }

  /** An enabled button submits a request; a button disabled while nothing is pending would only show the notice. */
  lemma SubmitButtonAgreesWithGuard(isPending: bool, content: string)
    ensures !SubmitDisabled(isPending, content) ==> Requests(SubmitEffects(content))
    ensures SubmitDisabled(false, content) ==> !Requests(SubmitEffects(content))
  {
    if !AllWhitespace(content) {
      assert SubmitEffects(content)[0].Mutate?;
    }
  }

  /** The submitted payload passes `createPostSchema` exactly when its trimmed text has at most 2000 characters. */
  lemma SubmittedPostSchema(content: string)
    requires !AllWhitespace(content)
    ensures CreatePostIssues(SubmitPayload(content).value) == [] <==> |SubmitPayload(content).value.content| <= PostContentMax
  {
  }

  /** The composer admits text up to 5000 characters, so it can submit a post `createPostSchema` rejects. */
  lemma SubmitCanExceedSchema()
    ensures exists content: string ::
      |content| <= ContentMaxLength && !AllWhitespace(content) && CreatePostIssues(SubmitPayload(content).value) != []
  {
    var content := seq(PostContentMax + 1, _ => 'a');
    assert !IsWhitespace(content[0]);
    TrimOfTrimmed(content);
    assert |SubmitPayload(content).value.content| == PostContentMax + 1;
  }

  /** The create mutation's `onError`. */
  function OnErrorEffects(unauthorized: bool): (effects: seq<Effect>)
    ensures unauthorized ==> effects == UnauthorizedRecovery
    ensures !unauthorized ==> effects == [Toast(ErrorNotice(CreateFailure))]
  {
    MutationErrorEffects(unauthorized, CreateFailure)
  }

  /** `firstName[0] + lastName[0]` when both names are set, else `AU`. */
  function UserInitials(u: User): (r: string)
    ensures |r| == 2
    ensures HasFullName(u) ==> r == Initials(u)
    ensures !HasFullName(u) ==> r == "AU"
  {
    if HasFullName(u) then Initials(u) else "AU"
  }

  datatype ComposerView = ComposerView(initials: string, characterCount: nat, submitDisabled: bool, buttonLabel: string)

  /** What the composer renders: nothing without a user. */
  function View(user: Option<User>, content: string, isPending: bool): (v: Option<ComposerView>)
    ensures v.None? <==> user.None?
    ensures v.Some? ==>
      && v.value.initials == UserInitials(user.value)
      && v.value.characterCount == |content|
      && v.value.submitDisabled == SubmitDisabled(isPending, content)
      && v.value.buttonLabel == (if isPending then "Posting..." else "Post")
  {
    match user
    case None => None
    case Some(u) =>
      Some(ComposerView(UserInitials(u), |content|, SubmitDisabled(isPending, content),
                        if isPending then "Posting..." else "Post"))
  }
}
