# LinkSphere client, modelled in Dafny

LinkSphere is a small social network. Its browser client is a React
application. Users sign in through an identity provider, publish short posts,
like them, read a feed and view and edit profiles. This project models the
client's core in Dafny:

- **the request helper** (`src/lib/queryClient.ts`). `apiRequest` obtains a
  bearer token for the signed-in user, builds the headers, resolves the URL,
  sends the request and turns a response outside 200..299 into an error. The
  query function for cached queries resolves the URL and classifies the
  response the same way, but sends no token and no headers. It joins the
  query key into a path and can turn a 401 into `null`.
- **the auth hook** (`src/hooks/useAuth.ts`). It subscribes to the provider's
  auth-state changes, keeps the provider user and a loading flag, and derives
  the application user from the provider user.
- **the data types and validation schemas** (`src/types/index.ts`).
- **the components and pages**: composer, feed, navigation bar, profile
  editor, profile page and sidebar. For each, the model covers what it
  renders from its inputs, the guards and payloads of its submit handlers,
  and what its mutations do on success and on error.

Handlers and callbacks do not perform their effects. They return them as
values (`Effects.Effect`): notices (toasts), delayed redirects, immediate
navigations, cache invalidations, mutations fired and modal closes. State a
component keeps in `useState` is a Dafny `class` whose methods update its
fields. Everything a component derives while rendering is a function.

Files: `wrappers.dfy` (Option, Result), `text.dfy` (the JavaScript string
operations used), `types.dfy`, `query_client.dfy`, `effects.dfy`,
`use_auth.dfy`, `create_post.dfy`, `posts_feed.dfy`, `navigation.dfy`,
`profile_edit_modal.dfy`, `profile_page.dfy` and `user_profile_sidebar.dfy`.

Behaviour worth noting:

- **Failed token request.** A rejected `getIdToken` is not swallowed. It
  rejects `apiRequest` and nothing is sent (`QueryClient.ApiRequest`; the
  code has no `try` around the call at `src/lib/queryClient.ts:20`).
- **Queries carry no headers.** Only mutations, which go through
  `apiRequest`, send `Authorization`. The query function's `fetch` carries
  credentials but no headers (`src/lib/queryClient.ts:61-63`), so cached
  queries never send a bearer token (`QueryClient.QueryRequest`).
- **Repeated redirects.** Several concurrent unauthorized errors are not
  collapsed into one redirect. Each `onError` schedules its own.
- **Names on `User`.** The `User` interface declares no `firstName` or
  `lastName`, but every component reads them. The model's `Types.User` has
  them as optional fields. The application user built by the auth hook never
  sets them.
- **Required name inputs.** Both name inputs of the profile editor carry
  `required` (`src/components/ProfileEditModal.tsx:105`, `:117`). The browser
  therefore cancels a submit while either is empty, and only a name made of
  whitespace reaches the names-required notice (`ProfileEditModal.FormSubmitEffects`).
- **Saving a profile refreshes nothing on screen.** The editor invalidates
  `["/api/auth/user"]` only. No query uses that key (the auth hook has no
  query), so the profile page's cached profile stays as it was
  (`ProfilePage.ProfileSaveLeavesProfileQuery`).
- **Length limits.** The composer admits 5000 characters where
  `createPostSchema` allows 2000 (`CreatePost.SubmitCanExceedSchema`). The bio
  text area admits 500 where the schema allows 1000
  (`ProfileEditModal.TypedBioPassesSchema`).

## Model

| member | source | states |
|---|---|---|
| Text.TrimStart | src/components/CreatePost.tsx:56 | The result is a suffix of the input, what was dropped is all whitespace, and the result does not start with whitespace |
| Text.IsWhitespace | src/components/CreatePost.tsx:56 | The characters `trim` removes: ECMAScript WhiteSpace (tab, vertical tab, form feed, space, no-break space, the byte order mark and the Zs space separators) and LineTerminator (line feed, carriage return, line and paragraph separators) (predicate) |
| Text.TrimEnd | src/components/CreatePost.tsx:56 | The result is a prefix of the input, what was dropped is all whitespace, and the result does not end with whitespace |
| Text.Trim | src/components/CreatePost.tsx:64 | The trimmed text is no longer than the input and neither starts nor ends with whitespace |
| Text.TrimIsSlice | src/components/CreatePost.tsx:64 | `trim()` returns the part of the input between a whitespace prefix and a whitespace suffix |
| Text.TrimEmptyIff | src/components/ProfileEditModal.tsx:74 | `!s.trim()` holds exactly when `s` is whitespace only |
| Text.TrimOfTrimmed | src/components/ProfileEditModal.tsx:84 | A text without outer whitespace is its own trim |
| Text.TrimIdempotent | src/components/ProfileEditModal.tsx:84 | Trimming twice equals trimming once |
| Types.Truthy | src/components/UserProfileSidebar.tsx:37 | JavaScript truthiness of an optional text: present and not empty (predicate) |
| Types.HasFullName | src/components/Navigation.tsx:16 | The test `firstName && lastName` (predicate) |
| Text.JoinSnoc | src/lib/queryClient.ts:56 | Joining one more key part appends the separator and that part |
| Text.Join | src/lib/queryClient.ts:56 | `Array.prototype.join(sep)` on texts: empty for no parts, the part itself for one, else the first part, the separator and the join of the rest (function without contract) |
| Text.StartsWith | src/lib/queryClient.ts:27 | `s.startsWith(prefix)`: the prefix is no longer than `s` and equals its first characters; also used at src/components/Navigation.tsx:44 (predicate) |
| Text.NatToString | src/lib/queryClient.ts:8 | The decimal form of a status is non-empty, all digits, and has no leading zero unless it is `0` |
| Text.DigitsValueOfNatToString | src/lib/queryClient.ts:8 | Reading the decimal form of a number back gives the number |
| Text.NatToStringInjective | src/lib/queryClient.ts:8 | Different statuses produce different decimal texts |
| Text.IntToString | src/components/PostsFeed.tsx:21 | The decimal form of a post id starts with `-` exactly when the id is negative. The rest is digits with no leading zero unless the id is 0, and they denote the id's absolute value |
| Text.IntToStringInjective | src/components/PostsFeed.tsx:21 | Different post ids produce different decimal texts |
| Text.LeadingDigits | src/lib/queryClient.ts:8 | Counts the digits at the front of a text: all are digits, and the next character is not |
| Text.LeadingDigitsAppend | src/lib/queryClient.ts:8 | The leading digits of a digit run followed by a text are the run plus the text's own leading digits |
| Text.AsciiUpper | src/components/PostsFeed.tsx:97 | Upper case maps `a`..`z` to `A`..`Z` and leaves every other character unchanged |
| Types.FullName | src/components/Navigation.tsx:16-18 | `first last` is the first name, one space, then the last name |
| Types.Initials | src/components/Navigation.tsx:19-21 | The initials are the first characters of the two words of the full name |
| Types.ProfilePath | src/components/PostsFeed.tsx:105 | `/profile/` then the user's id, or `undefined` without a user |
| Types.LengthIssues | src/types/index.ts:98 | A string passes `min`/`max` exactly when its length lies between the two bounds |
| Types.CreatePostIssues | src/types/index.ts:97-99 | A post passes `createPostSchema` exactly when its content has 1 to 2000 characters |
| Types.UpdateProfileIssues | src/types/index.ts:101-105 | A profile update passes exactly when a present name has 1..255 characters, a present bio at most 1000, and a present image URL is a URL |
| Types.EmptyProfileUpdateAccepted | src/types/index.ts:101-105 | All fields are optional, so the empty update passes |
| Types.CreateCommentIssues | src/types/index.ts:107-110 | A comment passes exactly when its content has 1..1000 characters and its post id is a positive integer |
| Types.IsInteger | src/types/index.ts:109 | zod's `.int()` on a finite number: the value equals its floor (predicate) |
| QueryClient.ResponseText | src/lib/queryClient.ts:7 | The error text is the body when it is not empty, else the status text |
| QueryClient.IsOk | src/lib/queryClient.ts:6 | `res.ok`: a status in 200..299 (predicate) |
| QueryClient.ErrorMessage | src/lib/queryClient.ts:8 | The error message starts with `<status>: ` and parses back to exactly that status and text |
| QueryClient.ParseErrorMessage | src/lib/queryClient.ts:8 | Reads `<digits>: <text>` back into a status and a text; the partner of `ErrorMessage` (function without contract) |
| QueryClient.ThrowIfResNotOk | src/lib/queryClient.ts:5-10 | No error exactly for a status in 200..299. Otherwise the message starts with the status's decimal form and `: `, and parses back to the status and the response text, so it is exactly `${status}: ${text}` |
| QueryClient.Classify | src/lib/queryClient.ts:37-46 | A network failure is a transport error; a response succeeds exactly when its status is ok, and otherwise fails with the error `throwIfResNotOk` throws |
| QueryClient.BaseUrl | src/lib/queryClient.ts:26 | The configured base URL when it is set, else `http://localhost:5000`; never empty |
| QueryClient.ResolveUrl | src/lib/queryClient.ts:27 | An endpoint starting with `http` is used unchanged; any other is appended to the base URL |
| QueryClient.ResolveUrlAbsolute | src/lib/queryClient.ts:26-27 | With an absolute base every resolved URL is absolute, and resolving again changes nothing |
| QueryClient.ApiRequest | src/lib/queryClient.ts:12-47 | Nothing is sent exactly when the signed-in user's token request is rejected, which is an error. Otherwise it sends the method, the resolved URL, the body and `include` credentials. `Content-Type: application/json` is sent exactly when there is data. `Authorization: Bearer <token>` is sent exactly when a non-empty token was obtained, and never when signed out. No other header is sent. The outcome is the classified reply, and a success is always an ok status |
| QueryClient.KeyTexts | src/lib/queryClient.ts:56 | Each key part becomes its text, and `undefined` becomes the empty string |
| QueryClient.KeyPath | src/lib/queryClient.ts:56 | `queryKey.join("/")` over the key parts' texts (function without contract) |
| QueryClient.KeyPathSnoc | src/lib/queryClient.ts:56 | Adding a part to a key adds `/` and that part's text to the path |
| QueryClient.KeyMatches | src/components/CreatePost.tsx:27-28 | The prefix matching `invalidateQueries({ queryKey })` applies to cached keys (predicate) |
| QueryClient.QueryRequest | src/lib/queryClient.ts:55-63 | A query fetches the resolved key path with GET, credentials, no body and no headers |
| QueryClient.UserQueryUrl | src/lib/queryClient.ts:56-57 | The key `["/api/users", id]` is fetched from the base URL followed by `/api/users/<id>` |
| QueryClient.QueryFn | src/lib/queryClient.ts:50-71 | Gives `null` exactly for a 401 under `returnNull` and data exactly for an ok status, with the body as the data. Every other response fails with the `throwIfResNotOk` error, and a network failure is a transport error |
| QueryClient.DefaultQuery401Fails | src/lib/queryClient.ts:73-86 | Under the client's default `on401: "throw"` a 401 fails with the message `401: <text>` |
| QueryClient.DefaultQueryOptions | src/lib/queryClient.ts:73-86 | The client's query defaults: `on401: "throw"`, no refetch interval or window-focus refetch, infinite staleness, no retry (constant) |
| Effects.ToastCount | src/components/PostsFeed.tsx:27-44 | Counts the notices: at most the number of effects, 0 exactly when no effect is a notice, and all of them exactly when every effect is one |
| Effects.ToastCountAppend | src/components/PostsFeed.tsx:27-44 | The notices of two effect lists add up |
| Effects.MutationErrorEffects | src/components/PostsFeed.tsx:27-44 | An unauthorized error gives exactly the unauthorized notice and the 500 ms login redirect. Any other error gives exactly the failure notice and nothing else. Exactly one notice, never a request or a modal close |
| UseAuth.ToAppUser | src/hooks/useAuth.ts:18-26 | The application user carries the provider's uid. The email defaults to empty, the name to `User` and the photo to empty. The bio is empty, both timestamps are the current time, and there are no first or last names |
| UseAuth.AuthHook.constructor | src/hooks/useAuth.ts:6-7 | No provider user yet, loading, not subscribed |
| UseAuth.AuthHook.Valid | src/hooks/useAuth.ts:7-12 | The hook's invariant: loading exactly until the first auth-state callback (predicate) |
| UseAuth.AuthHook.Mount | src/hooks/useAuth.ts:9-10 | Mounting subscribes and changes nothing else |
| UseAuth.AuthHook.AuthStateChanged | src/hooks/useAuth.ts:10-13 | The delivered user is stored and loading ends; loading holds exactly until the first delivery |
| UseAuth.AuthHook.Unmount | src/hooks/useAuth.ts:14 | The cleanup unsubscribes and changes nothing else |
| UseAuth.AuthHook.AppUser | src/hooks/useAuth.ts:18-26 | The application user is null exactly when the provider user is, else built from it |
| UseAuth.AuthHook.IsAuthenticated | src/hooks/useAuth.ts:49 | Authenticated exactly when there is a provider user |
| CreatePost.CreatePostForm.constructor | src/components/CreatePost.tsx:13 | The composer starts empty |
| CreatePost.CreatePostForm.Change | src/components/CreatePost.tsx:85 | Typing replaces the content |
| CreatePost.CreatePostForm.OnSuccess | src/components/CreatePost.tsx:25-33 | On success the content is cleared, the feed and user-post lists are refreshed, and the published notice shows |
| CreatePost.SubmitPayload | src/components/CreatePost.tsx:56-64 | No payload exactly for whitespace-only content. Otherwise the payload is the content between its whitespace prefix and suffix: non-empty, with no outer whitespace |
| CreatePost.SubmitEffects | src/components/CreatePost.tsx:54-65 | Whitespace-only content gives only the empty-content notice; any other gives exactly one POST to `/api/posts` with the trimmed payload |
| CreatePost.SubmitDisabled | src/components/CreatePost.tsx:96 | The button is disabled exactly while a create is pending or the content is whitespace only |
| CreatePost.SubmitButtonAgreesWithGuard | src/components/CreatePost.tsx:56-64 | An enabled button always leads to a request; when nothing is pending, a disabled one never does |
| CreatePost.SubmittedPostSchema | src/types/index.ts:97-99 | A submitted payload passes `createPostSchema` exactly when its trimmed text has at most 2000 characters |
| CreatePost.SubmitCanExceedSchema | src/components/CreatePost.tsx:88 | The text area admits 5000 characters, so a content the schema rejects can be submitted |
| CreatePost.OnErrorEffects | src/components/CreatePost.tsx:34-51 | Unauthorized recovery for an unauthorized error, else only the create-failure notice |
| CreatePost.UserInitials | src/components/CreatePost.tsx:69-71 | The user's initials when both names are set, else `AU` |
| CreatePost.View | src/components/CreatePost.tsx:67-99 | Nothing without a user. Otherwise: the initials, the character count, the disabled state and `Posting...` while pending, else `Post` |
| PostsFeed.AuthorName | src/components/PostsFeed.tsx:93-95 | Never empty. `Anonymous User` without an author or when the names trim to nothing, else the trimmed `first last` |
| PostsFeed.RawAuthorName | src/components/PostsFeed.tsx:94 | The untrimmed template `${firstName \|\| ''} ${lastName \|\| ''}` (function without contract) |
| PostsFeed.AuthorNameOfCleanNames | src/components/PostsFeed.tsx:93-95 | Names without outer whitespace display as exactly `first last` |
| PostsFeed.AuthorInitials | src/components/PostsFeed.tsx:96-98 | The two upper-cased first letters when both names are set, else `AU` |
| PostsFeed.LikeEndpoint | src/components/PostsFeed.tsx:21 | `/api/posts/` then the post id in decimal, then `/like` |
| PostsFeed.LikeEndpointInjective | src/components/PostsFeed.tsx:21 | Different posts are liked through different endpoints |
| PostsFeed.LikeEffects | src/components/PostsFeed.tsx:47-49 | Liking sends a POST with no payload to the post's like endpoint |
| PostsFeed.LikeSuccessEffects | src/components/PostsFeed.tsx:24-26 | A like refreshes only the feed |
| PostsFeed.LikeErrorEffects | src/components/PostsFeed.tsx:27-44 | Unauthorized recovery or the like-failure notice, never both |
| PostsFeed.Card | src/components/PostsFeed.tsx:92-153 | A card shows the post's id, content and like count, the author line and initials of `AuthorName`/`AuthorInitials`, the author's email and a link to the author's profile. Its like button is disabled exactly while a like is pending |
| PostsFeed.Feed | src/components/PostsFeed.tsx:14-157 | Three placeholders while loading. The empty state when there are no posts, and missing data counts as none. Otherwise one card per post, in order |
| PostsFeed.NoDataShowsEmptyState | src/components/PostsFeed.tsx:78-88 | A settled query without data shows the empty state |
| Navigation.UserName | src/components/Navigation.tsx:16-18 | `first last` when both names are set, else `User`; never empty |
| Navigation.UserInitials | src/components/Navigation.tsx:19-21 | The initials when both names are set, else `U` |
| Navigation.InitialsMatchName | src/components/Navigation.tsx:16-21 | The initials are the first letters of the displayed name's two words |
| Navigation.HomeActive | src/components/Navigation.tsx:37 | Home is highlighted exactly on `/` (predicate) |
| Navigation.ProfileActive | src/components/Navigation.tsx:44 | Profile is highlighted on every location starting with `/profile` (predicate) |
| Navigation.ActiveLinks | src/components/Navigation.tsx:36-45 | Home and Profile are never both highlighted, and the profile link's own target highlights Profile |
| Navigation.SignOutEffects | src/components/Navigation.tsx:77 | Sign-out navigates at once to `/api/logout` |
| Navigation.NavigationState.constructor | src/components/Navigation.tsx:13 | The editor starts closed |
| Navigation.NavigationState.EditProfile | src/components/Navigation.tsx:73 | Edit Profile opens the editor |
| Navigation.NavigationState.CloseProfileModal | src/components/Navigation.tsx:88-91 | The editor's `onClose` closes it |
| Navigation.AuthUserShownAsFallback | src/components/Navigation.tsx:16-21 | For the auth hook's user the bar always shows `User` and `U` |
| ProfileEditModal.ProfileEditForm.constructor | src/components/ProfileEditModal.tsx:24-26 | The three fields start empty |
| ProfileEditModal.ProfileEditForm.Prefill | src/components/ProfileEditModal.tsx:28-34 | With a user and the editor open, the fields take the user's names and bio, each missing one as empty; otherwise nothing changes |
| ProfileEditModal.ProfileEditForm.SetFirstName | src/components/ProfileEditModal.tsx:24 | Only the first name changes |
| ProfileEditModal.ProfileEditForm.SetLastName | src/components/ProfileEditModal.tsx:25 | Only the last name changes |
| ProfileEditModal.ProfileEditForm.SetBio | src/components/ProfileEditModal.tsx:26 | Only the bio changes |
| ProfileEditModal.ProfilePayload | src/components/ProfileEditModal.tsx:74-86 | No payload exactly when either name is whitespace only. Otherwise the name is the two trimmed names joined by one space. The bio is left out exactly when it is whitespace only, else trimmed. No image URL |
| ProfileEditModal.PayloadNameIsTrimmed | src/components/ProfileEditModal.tsx:84 | The name sent has no outer whitespace |
| ProfileEditModal.PayloadSchema | src/types/index.ts:101-105 | A payload passes `updateProfileSchema` exactly when the name has at most 255 characters and a sent bio at most 1000 |
| ProfileEditModal.TypedBioPassesSchema | src/components/ProfileEditModal.tsx:130 | A bio of at most the text area's 500 characters never fails the schema, so the payload passes exactly when the name has at most 255 characters |
| ProfileEditModal.SubmitEffects | src/components/ProfileEditModal.tsx:71-87 | Only the names-required notice when a name is missing, else exactly one PUT to `/api/profile` with the payload |
| ProfileEditModal.FormSubmitEffects | src/components/ProfileEditModal.tsx:96-118 | Nothing while either name is empty, because the `required` inputs cancel the submit; otherwise what `handleSubmit` does. The names-required notice shows exactly for non-empty whitespace-only names |
| ProfileEditModal.OnSuccessEffects | src/components/ProfileEditModal.tsx:43-50 | Refreshes only the signed-in user, shows the updated notice, closes the editor |
| ProfileEditModal.OnErrorEffects | src/components/ProfileEditModal.tsx:51-68 | Unauthorized recovery for an unauthorized error, else only the update-failure notice |
| ProfileEditModal.PrefillFromAuthUser | src/components/ProfileEditModal.tsx:28-34 | Prefilled from the auth hook's user, both names are empty, so an immediate submit is stopped by the `required` inputs: no notice, no request |
| ProfileEditModal.TypedNamesResetByPrefill | src/components/ProfileEditModal.tsx:28-34 | With the auth hook's user, the prefill effect re-runs after each keystroke and resets the typed names to empty, so the submit that follows sends nothing and shows nothing |
| ProfilePage.ProfileUserId | src/pages/Profile.tsx:15 | The route's id when it is set, else the viewer's id, else none |
| ProfilePage.IsOwnProfile | src/pages/Profile.tsx:16 | `!userId \|\| userId === currentUser?.id` (predicate) |
| ProfilePage.OwnProfileIsViewersId | src/pages/Profile.tsx:15-16 | For a signed-in viewer the profile is their own exactly when the profile shown has their id |
| ProfilePage.ProfileQueryKey | src/pages/Profile.tsx:33-43 | Both queries' keys are their resource followed by the profile id, `undefined` exactly when there is no id |
| ProfilePage.QueriesEnabled | src/pages/Profile.tsx:35 | Both queries run exactly when there is a profile id and the viewer is signed in (predicate) |
| ProfilePage.PublishRefreshesProfilePosts | src/components/CreatePost.tsx:27-28 | Publishing a post invalidates the profile page's posts query through `["/api/posts/user"]`; the feed's `["/api/posts"]` filter does not match it |
| ProfilePage.ProfileSaveLeavesProfileQuery | src/components/ProfileEditModal.tsx:44 | Saving the profile invalidates neither of the profile page's queries |
| ProfilePage.EnabledUserQueryUrl | src/pages/Profile.tsx:33-37 | An enabled profile query fetches `/api/users/<id>` from the base URL |
| ProfilePage.RedirectEffects | src/pages/Profile.tsx:19-31 | The unauthorized notice and the login redirect exactly when auth has settled without a user, else nothing |
| ProfilePage.DisplayName | src/pages/Profile.tsx:61-63 | `first last` when the shown user has both names, else `Anonymous User` |
| ProfilePage.DisplayInitials | src/pages/Profile.tsx:64-66 | The two initials when the shown user has both names, else `AU` |
| ProfilePage.PostsHeading | src/pages/Profile.tsx:100 | `Your Posts` exactly on one's own profile, otherwise `<name>'s Posts` |
| ProfilePage.PageView | src/pages/Profile.tsx:60-155 | Shows the name, initials, email and post count of the user shown. The bio shows, as it is, exactly when it is not empty. Posts: a spinner while they load, and without posts the own-profile or other-profile empty message. Otherwise every post under the page's own name and initials, with its content and like count |
| ProfilePage.Screen | src/pages/Profile.tsx:45-60 | Spinner while auth or the profile loads. Nothing for a signed-out viewer. Otherwise the page for the fetched profile, or the viewer without one, with missing posts as none |
| ProfilePage.OwnPageFromAuthUser | src/pages/Profile.tsx:60-66 | One's own page built from the auth hook's user shows `Anonymous User`, `AU`, no bio and `Your Posts` |
| UserProfileSidebar.PostsQueryEnabled | src/components/UserProfileSidebar.tsx:11 | The posts query runs exactly when there is a user with a non-empty id (predicate) |
| UserProfileSidebar.UserPostsQueryKey | src/components/UserProfileSidebar.tsx:10 | The key is `/api/posts/user` followed by the user's id, or `undefined` without a user; the composer's `["/api/posts/user"]` invalidation matches it |
| UserProfileSidebar.Sidebar | src/components/UserProfileSidebar.tsx:14-57 | Nothing exactly when there is no user. Otherwise: the name and initials with their `Anonymous User` and `AU` fallbacks, the email, and the bio exactly when it is not empty. Also the number of fetched posts. The membership is `Recently` exactly when there is no creation date, and otherwise the year of the user's own `createdAt` |
| UserProfileSidebar.SidebarForAuthUser | src/components/UserProfileSidebar.tsx:9-57 | For the auth hook's user: the fallbacks and no bio. A membership year whenever the current time's text is not empty. The posts query runs exactly when the uid is not empty |

## Left out

- Network and provider calls are parameters. `fetch`, the identity provider's `getIdToken` and `onAuthStateChanged`, and `auth.currentUser` appear as inputs (`reply`, `mint`, `signedIn`, `delivered`). Their asynchrony and timing are not modelled.
- `console.log` is left out: it has no effect on behaviour.
- `window.location` assignments and `setTimeout` are effect values (`Navigate`, `Redirect` with its 500 ms delay); the browser does not perform them.
- JSON is symbolic. `JSON.stringify` of a payload and `res.json()` are not modelled: a request carries the payload value and a query's data is the body text.
- A rejection of `res.text()` itself is not modelled.
- Types.UpdateProfileIssues: zod's `url()` test is the parameter `isUrl`, not a URL parser.
- Dates are not modelled. `new Date().toISOString()` is the parameter `now`, `getFullYear` is the opaque `YearOf(createdAt)`, and `toLocaleDateString` output does not appear on cards.
- UseAuth.ToAppUser: `createdAt` and `updatedAt` come from two separate `new Date()` calls (`src/hooks/useAuth.ts:24-25`) and can differ by a millisecond; the model takes both from the single `now`, so its `createdAt == updatedAt` is stronger than the code guarantees.
- JavaScript numbers (`Post.id`, `_count.likes`, `res.status`, `postId`) are modelled as unbounded integers (`int`, `nat`, and `real` for the comment schema's `postId`). Floating-point precision, `NaN` and non-integer ids are not modelled.
- Native form validation beyond the name inputs' `required` is not modelled. Text areas' `maxLength` appears only as the constants `CreatePost.ContentMaxLength` and `ProfileEditModal.BioMaxLength`.
- The client's `mutations: { retry: false }` is not modelled separately: every mutation in the model is sent once.
- Strings are sequences of Unicode scalar values, not UTF-16 code units. Lengths, `[0]` and `maxLength` count scalar values.
- PostsFeed.AuthorInitials upper-cases ASCII letters only, where `toUpperCase` maps all of Unicode.
- TanStack Query internals are left out: caching, de-duplication, staleness, refetching and the `isPending`/`isLoading` flags. The flags are inputs, and the client's options are recorded as values (`QueryClient.DefaultQueryOptions`).
- `isUnauthorizedError` (`src/lib/authUtils`) is not part of this model. Its verdict on an error is the boolean `unauthorized`.
- React scheduling is not modelled: effects and re-renders are not. `ProfileEditModal.ProfileEditForm.Prefill` models one run of the prefill effect. The auth hook builds a new `user` object on every render, so the effect's dependency changes each time. The effect then re-runs and overwrites what was typed while the editor is open. `ProfileEditModal.TypedNamesResetByPrefill` models that as a sequence of keystrokes each followed by a re-run; the scheduling itself is not modelled.
- `useToast`'s queueing and dismissal are not modelled; a notice is an `Effect` value only.
- Dark mode (`useDarkMode`), `Logo`, `Landing` and `Home` are outside the modelled core.
- `data ? ... : undefined` on a falsy primitive payload is not modelled. Payloads are objects, so present data is always truthy.
- Markup, styling and icons are not modelled; views keep only the values a user sees.
- UseAuth.AuthHook: the StrictMode double mount is outside the model, so `Mount` requires an unsubscribed hook.
