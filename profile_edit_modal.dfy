/**
 * The profile editor: its three text fields, the prefill from the current user,
 * the submit guard and payload, and the update mutation's handlers.
 */
module ProfileEditModal {
  import opened Wrappers
  import opened Text
  import opened Types
  import opened QueryClient
  import opened Effects
  import UseAuth

  const ProfileEndpoint: string := "/api/profile"
  const AuthUserKey: QueryKey := [Segment("/api/auth/user")]
  const NamesRequiredNotice: Notice := ErrorNotice("First name and last name are required.")
  const UpdatedNotice: Notice := SuccessNotice("Your profile has been updated!")
  const UpdateFailure: string := "Failed to update profile. Please try again."
  /** The bio text area's `maxLength`. */
  const BioMaxLength: nat := 500

  /** The editor's state: the three fields as typed. */
  class ProfileEditForm {
    var firstName: string
    var lastName: string
    var bio: string

    constructor ()
      ensures firstName == "" && lastName == "" && bio == ""
    {
      firstName, lastName, bio := "", "", "";
    }

    /**
     * One run of the prefill effect: with a user and the modal open the fields
     * take the user's first name, last name and bio, a missing one as `""`;
     * otherwise nothing changes.
     */
    method Prefill(user: Option<User>, isOpen: bool)
      modifies this
      ensures user.Some? && isOpen ==>
        && firstName == user.value.firstName.GetOr("")
        && lastName == user.value.lastName.GetOr("")
        && bio == user.value.bio.GetOr("")
      ensures !(user.Some? && isOpen) ==>
        firstName == old(firstName) && lastName == old(lastName) && bio == old(bio)
    {
      if user.Some? && isOpen {
        firstName := user.value.firstName.GetOr("");
        lastName := user.value.lastName.GetOr("");
        bio := user.value.bio.GetOr("");
      }
    }

    method SetFirstName(value: string)
      modifies this
      ensures firstName == value && lastName == old(lastName) && bio == old(bio)
    {
      firstName := value;
    }

    method SetLastName(value: string)
      modifies this
      ensures lastName == value && firstName == old(firstName) && bio == old(bio)
    {
      lastName := value;
    }

    method SetBio(value: string)
      modifies this
      ensures bio == value && firstName == old(firstName) && lastName == old(lastName)
    {
      bio := value;
    }
  }

  /**
   * The payload `handleSubmit` sends: none when either trimmed name is empty;
   * else the name is the trimmed first name, one space and the trimmed last
   * name, the bio is absent when it trims to nothing and trimmed otherwise,
   * and no image URL is sent.
   */
  function ProfilePayload(firstName: string, lastName: string, bio: string): (p: Option<UpdateProfileData>)
    ensures p.None? <==> AllWhitespace(firstName) || AllWhitespace(lastName)
    ensures p.Some? ==>
      var f, l := Trim(firstName), Trim(lastName);
      && p.value.name == Some(f + " " + l)
      && f != [] && l != []
    ensures p.Some? ==> (p.value.bio.None? <==> AllWhitespace(bio))
    ensures p.Some? && p.value.bio.Some? ==> p.value.bio.value == Trim(bio) && p.value.bio.value != []
    ensures p.Some? ==> p.value.profileImageUrl.None?
  {
    TrimEmptyIff(firstName);
    TrimEmptyIff(lastName);
    TrimEmptyIff(bio);
    var f, l, b := Trim(firstName), Trim(lastName), Trim(bio);
    if f == [] || l == [] then None
    else
      Some(UpdateProfileData(Some(f + " " + l), if b == [] then None else Some(b), None))
  }

  /** The name a payload carries neither starts nor ends with whitespace. */
  lemma PayloadNameIsTrimmed(firstName: string, lastName: string, bio: string)
    requires !AllWhitespace(firstName) && !AllWhitespace(lastName)
    ensures Trim(ProfilePayload(firstName, lastName, bio).value.name.value) == ProfilePayload(firstName, lastName, bio).value.name.value
  {
    var f, l := Trim(firstName), Trim(lastName);
    var n := f + " " + l;
    assert n[0] == f[0] && n[|n| - 1] == l[|l| - 1];
    TrimOfTrimmed(n);
  }

  /** The payload passes `updateProfileSchema` exactly when the name has at most 255 and the bio at most 1000 characters. */
  lemma PayloadSchema(firstName: string, lastName: string, bio: string, isUrl: string -> bool)
    requires !AllWhitespace(firstName) && !AllWhitespace(lastName)
    ensures UpdateProfileIssues(ProfilePayload(firstName, lastName, bio).value, isUrl) == [] <==>
      |Trim(firstName)| + 1 + |Trim(lastName)| <= ProfileNameMax
      && (!AllWhitespace(bio) ==> |Trim(bio)| <= ProfileBioMax)
  {
  }

  /** `handleSubmit`: the names-required notice and no request, or exactly the update request. */
  function SubmitEffects(firstName: string, lastName: string, bio: string): (effects: seq<Effect>)
    ensures AllWhitespace(firstName) || AllWhitespace(lastName) ==> effects == [Toast(NamesRequiredNotice)]
    ensures !AllWhitespace(firstName) && !AllWhitespace(lastName) ==>
      effects == [Mutate("PUT", ProfileEndpoint, Some(UpdateProfileBody(ProfilePayload(firstName, lastName, bio).value)))]
  {
    match ProfilePayload(firstName, lastName, bio)
    case None => [Toast(NamesRequiredNotice)]
    case Some(p) => [Mutate("PUT", ProfileEndpoint, Some(UpdateProfileBody(p)))]
  }

  /**
   * Submitting the form: both name inputs are `required`, so the browser's
   * constraint validation cancels a submit while either is the empty string
   * and `handleSubmit` does not run; otherwise `handleSubmit` runs.
   */
  function FormSubmitEffects(firstName: string, lastName: string, bio: string): (effects: seq<Effect>)
    ensures firstName == "" || lastName == "" ==> effects == []
    ensures firstName != "" && lastName != "" ==> effects == SubmitEffects(firstName, lastName, bio)
    ensures Shows(effects, NamesRequiredNotice) <==>
      firstName != "" && lastName != "" && (AllWhitespace(firstName) || AllWhitespace(lastName))
  {
    if firstName == "" || lastName == "" then []
    else
      var e := SubmitEffects(firstName, lastName, bio);
      assert ProfilePayload(firstName, lastName, bio).None? ==> e[0] == Toast(NamesRequiredNotice);
      e
  }

  /**
   * A bio typed into the text area (at most 500 characters) never trips the
   * schema's 1000-character bound, so such a payload passes exactly when the
   * name has at most 255 characters. A prefilled bio is not bounded by the
   * text area.
   */
  lemma TypedBioPassesSchema(firstName: string, lastName: string, bio: string, isUrl: string -> bool)
    requires !AllWhitespace(firstName) && !AllWhitespace(lastName)
    requires |bio| <= BioMaxLength
    ensures UpdateProfileIssues(ProfilePayload(firstName, lastName, bio).value, isUrl) == [] <==>
      |Trim(firstName)| + 1 + |Trim(lastName)| <= ProfileNameMax
  {
    PayloadSchema(firstName, lastName, bio, isUrl);
  }

  /** The update mutation's `onSuccess`: refresh only the signed-in user, confirm, close the modal. */
  function OnSuccessEffects(): (effects: seq<Effect>)
    ensures effects == [Invalidate(AuthUserKey), Toast(UpdatedNotice), CloseModal]
    ensures forall i :: 0 <= i < |effects| && effects[i].Invalidate? ==> effects[i].key == AuthUserKey
  {
    [Invalidate(AuthUserKey), Toast(UpdatedNotice), CloseModal]
  }

  /** The update mutation's `onError`. */
  function OnErrorEffects(unauthorized: bool): (effects: seq<Effect>)
    ensures unauthorized ==> effects == UnauthorizedRecovery
    ensures !unauthorized ==> effects == [Toast(ErrorNotice(UpdateFailure))]
  {
    MutationErrorEffects(unauthorized, UpdateFailure)
  }

  /**
   * The auth hook's user has no first or last name, so prefilling from it
   * leaves both name fields empty: an immediate submit is stopped by the
   * browser's `required` check, and no notice is shown and no request sent.
   */
  method PrefillFromAuthUser(fu: AuthUser, now: string) returns (effects: seq<Effect>)
    ensures effects == []
  {
    var form := new ProfileEditForm();
    form.Prefill(Some(UseAuth.ToAppUser(fu, now)), true);
    assert form.firstName == "" && form.lastName == "";
    effects := FormSubmitEffects(form.firstName, form.lastName, form.bio);
  }

  /**
   * The auth hook builds a new user object on every render, so the prefill
   * effect runs again after each keystroke: whatever names were typed are
   * reset to `""` from the auth hook's user, and the submit that follows is
   * stopped by the `required` check, so no request is ever sent.
   */
  method TypedNamesResetByPrefill(fu: AuthUser, now: string, first: string, last: string, bio: string)
    returns (effects: seq<Effect>)
    ensures effects == []
  {
    var form := new ProfileEditForm();
    form.SetFirstName(first);
    form.Prefill(Some(UseAuth.ToAppUser(fu, now)), true);
    form.SetLastName(last);
    form.Prefill(Some(UseAuth.ToAppUser(fu, now)), true);
    form.SetBio(bio);
    form.Prefill(Some(UseAuth.ToAppUser(fu, now)), true);
    assert form.firstName == "" && form.lastName == "";
    effects := FormSubmitEffects(form.firstName, form.lastName, form.bio);
  }
}
