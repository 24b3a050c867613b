/**
 * What the components' handlers do, written out as values: notices (toasts),
 * navigations, cache invalidations, mutations fired and modal closes. Also
 * the unauthorized-recovery policy every mutation's `onError` repeats.
 */
module Effects {
  import opened Wrappers
  import opened QueryClient

  datatype Variant = Plain | Destructive

  /** A toast: its title, description and variant. */
  datatype Notice = Notice(title: string, description: string, variant: Variant)

  datatype Effect =
    | Toast(notice: Notice)
    | Redirect(path: string, delayMs: nat)  // `setTimeout(() => window.location.href = path, delayMs)`
    | Navigate(path: string)                 // `window.location.href = path`, at once
    | Invalidate(key: QueryKey)              // `queryClient.invalidateQueries({ queryKey: key })`
    | Mutate(httpMethod: string, endpoint: string, data: Option<Payload>)  // a mutation that calls `apiRequest`
    | CloseModal                             // the `onClose` callback a modal was given

  const LoginPath: string := "/api/login"
  const LogoutPath: string := "/api/logout"
  const RedirectDelayMs: nat := 500

  const UnauthorizedNotice: Notice := Notice("Unauthorized", "You are logged out. Logging in again...", Destructive)

  function ErrorNotice(description: string): Notice {
    Notice("Error", description, Destructive)
  }

  function SuccessNotice(description: string): Notice {
    Notice("Success", description, Plain)
  }

  /** The unauthorized notice, then a redirect to the login entry point after 500 ms. */
  const UnauthorizedRecovery: seq<Effect> := [Toast(UnauthorizedNotice), Redirect(LoginPath, RedirectDelayMs)]

  predicate Redirects(effects: seq<Effect>) {
    exists i :: 0 <= i < |effects| && effects[i].Redirect?
  }

  predicate Requests(effects: seq<Effect>) {
    exists i :: 0 <= i < |effects| && effects[i].Mutate?
  }

  predicate Shows(effects: seq<Effect>, n: Notice) {
    Toast(n) in effects
  }

  /** How many notices the effects show. */
  function ToastCount(effects: seq<Effect>): (n: nat)
    ensures n <= |effects|
    ensures n == 0 <==> forall i :: 0 <= i < |effects| ==> !effects[i].Toast?
    ensures n == |effects| <==> forall i :: 0 <= i < |effects| ==> effects[i].Toast?
  {
    if effects == [] then 0
    else
      var n := (if effects[0].Toast? then 1 else 0) + ToastCount(effects[1..]);
      assert forall i :: 1 <= i < |effects| ==> effects[i] == effects[1..][i - 1];
      n
  }

  /** The notices of two effect lists run one after the other add up. */
  lemma {:induction false} ToastCountAppend(a: seq<Effect>, b: seq<Effect>)
    ensures ToastCount(a + b) == ToastCount(a) + ToastCount(b)
    decreases |a|
  {
    if a != [] {
      assert (a + b)[1..] == a[1..] + b;
      ToastCountAppend(a[1..], b);
    } else {
      assert a + b == b;
    }
  }

  /**
   * A mutation's `onError`: when `isUnauthorizedError` holds of the error
   * (`unauthorized`), the unauthorized notice and the delayed redirect to
   * the login entry point and nothing else; otherwise only the error notice
   * carrying `failure`.
   */
  function MutationErrorEffects(unauthorized: bool, failure: string): (effects: seq<Effect>)
    ensures ToastCount(effects) == 1
    ensures Redirects(effects) <==> unauthorized
    ensures Shows(effects, ErrorNotice(failure)) <==> !unauthorized
    ensures Shows(effects, UnauthorizedNotice) <==> unauthorized
    ensures unauthorized ==> effects == UnauthorizedRecovery
    ensures !unauthorized ==> effects == [Toast(ErrorNotice(failure))]
    ensures !Requests(effects) && CloseModal !in effects
  {
    if unauthorized then UnauthorizedRecovery else [Toast(ErrorNotice(failure))]
  }
}
