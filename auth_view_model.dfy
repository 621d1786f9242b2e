/**
 * The authentication screen state (`AuthUiState`) and the view model that moves it through
 * sign-in, sign-up, profile loading and sign-out. Each flow is a "begin" step, taken before
 * the repository is called, and a "complete" step that receives the repository's result.
 */
module Auth {
  import opened Wrappers
  import opened Domain

  datatype AuthUiState = AuthUiState(
    isLoading: bool,
    errorMessage: Option<string>,
    currentUser: Option<UserProfile>)
  {
    /** `isLoggedIn`: a profile is installed. */
    predicate IsLoggedIn(): (r: bool)
      ensures r <==> currentUser != None
    {
      currentUser.Some?
    }
  }

  /** `AuthUiState()`, the value the view model starts from. */
  const Initial: AuthUiState := AuthUiState(false, None, None)

  /** A `Throwable`; only its (nullable) message is read. */
  datatype Throwable = Throwable(message: Option<string>)

  /** Kotlin's `Result<T>` as the repository returns it. */
  datatype Result<T> = Success(value: T) | Failure(error: Throwable)

  const SignInFailed: string := "Sign-in failed"
  const SignUpFailed: string := "Sign-up failed"
  const LoadUserFailed: string := "Failed to load user profile"

  /** One update of the state: the begin and complete halves of each flow, and sign-out. */
  datatype Step =
    | BeginSignIn
    | CompleteSignIn(signInResult: Result<UserProfile>)
    | BeginSignUp
    | CompleteSignUp(signUpResult: Result<UserProfile>)
    | BeginLoadCurrentUser
    | CompleteLoadCurrentUser(loadResult: Result<Option<UserProfile>>)
    | SignOut
  {
    predicate IsBegin() {
      BeginSignIn? || BeginSignUp? || BeginLoadCurrentUser?
    }

    predicate IsFailure() {
      || (CompleteSignIn? && signInResult.Failure?)
      || (CompleteSignUp? && signUpResult.Failure?)
      || (CompleteLoadCurrentUser? && loadResult.Failure?)
    }

    /** The user this step installs, if it installs one (`Some(None)` logs out). */
    function InstalledUser(): Option<Option<UserProfile>> {
      match this
      case CompleteSignIn(Success(p)) => Some(Some(p))
      case CompleteSignUp(Success(p)) => Some(Some(p))
      case CompleteLoadCurrentUser(Success(u)) => Some(u)
      case SignOut => Some(None)
      case _ => None
    }
  }

  /** `it.copy(isLoading = true, errorMessage = null)` */
  function Begin(s: AuthUiState): (r: AuthUiState)
    ensures r.isLoading && r.errorMessage.None?
    ensures r.currentUser == s.currentUser && r.IsLoggedIn() == s.IsLoggedIn()
  {
    s.(isLoading := true, errorMessage := None)
  }

  /**
   * `result.fold(...)` of a flow: on success the returned profile becomes the current user,
   * on failure the error's message (or `fallback`) is shown and the user is kept.
   */
  function Complete(s: AuthUiState, result: Result<Option<UserProfile>>, fallback: string): (r: AuthUiState)
    ensures !r.isLoading
    ensures r.errorMessage.Some? <==> result.Failure?
    ensures result.Success? ==> r.currentUser == result.value
    ensures result.Failure? ==> r.currentUser == s.currentUser
    ensures result.Failure? && result.error.message.Some? ==> r.errorMessage == result.error.message
    ensures result.Failure? && result.error.message.None? ==> r.errorMessage == Some(fallback)
  {
    match result
    case Success(profile) => s.(isLoading := false, errorMessage := None, currentUser := profile)
    case Failure(error) => s.(isLoading := false, errorMessage := Some(error.message.GetOr(fallback)))
  }

  /** A non-null profile result, as `signIn` and `signUp` return it. */
  function Nullable(result: Result<UserProfile>): Result<Option<UserProfile>> {
    match result
    case Success(p) => Success(Some(p))
    case Failure(e) => Failure(e)
  }

  /** The state after one step. */
  function Apply(s: AuthUiState, step: Step): (r: AuthUiState)
    ensures step.IsBegin() ==> r.isLoading && r.errorMessage.None? && r.currentUser == s.currentUser
    ensures !step.IsBegin() ==> !r.isLoading
    ensures r.errorMessage.Some? <==> step.IsFailure()
    ensures step.InstalledUser().Some? ==> r.currentUser == step.InstalledUser().value
    ensures step.InstalledUser().None? ==> r.currentUser == s.currentUser
    ensures step.SignOut? ==> r == Initial
    ensures step.CompleteSignIn? && step.signInResult.Failure? ==>
      r.errorMessage == Some(step.signInResult.error.message.GetOr(SignInFailed))
    ensures step.CompleteSignUp? && step.signUpResult.Failure? ==>
      r.errorMessage == Some(step.signUpResult.error.message.GetOr(SignUpFailed))
    ensures step.CompleteLoadCurrentUser? && step.loadResult.Failure? ==>
      r.errorMessage == Some(step.loadResult.error.message.GetOr(LoadUserFailed))
  {
    match step
    case BeginSignIn => Begin(s)
    case CompleteSignIn(result) => Complete(s, Nullable(result), SignInFailed)
    case BeginSignUp => Begin(s)
    case CompleteSignUp(result) => Complete(s, Nullable(result), SignUpFailed)
    case BeginLoadCurrentUser => Begin(s)
    case CompleteLoadCurrentUser(result) => Complete(s, result, LoadUserFailed)
    case SignOut => s.(isLoading := false, errorMessage := None, currentUser := None)
  }

  /** The state after a sequence of steps, applied in order. */
  function Run(s: AuthUiState, steps: seq<Step>): AuthUiState
    decreases |steps|
  {
    if steps == [] then s else Apply(Run(s, steps[..|steps| - 1]), steps[|steps| - 1])
  }

  /** No step after index `i` installs a user. */
  ghost predicate NoLaterInstall(steps: seq<Step>, i: int) {
    forall j | 0 <= j < |steps| && i < j :: steps[j].InstalledUser().None?
  }

  /**
   * After any run, the current user is the one installed by the latest step that installs
   * one (a successful completion or a sign-out), or the starting user when no step does.
   */
  lemma {:induction false} CurrentUserIsLatestInstalled(s: AuthUiState, steps: seq<Step>)
    ensures var r := Run(s, steps);
      || (exists i | 0 <= i < |steps| ::
            steps[i].InstalledUser().Some? && NoLaterInstall(steps, i)
            && r.currentUser == steps[i].InstalledUser().value)
      || (NoLaterInstall(steps, -1) && r.currentUser == s.currentUser)
    decreases |steps|
  {
    if steps != [] {
      var n := |steps| - 1;
      var prefix := steps[..n];
      CurrentUserIsLatestInstalled(s, prefix);
      assert Run(s, steps).currentUser == Apply(Run(s, prefix), steps[n]).currentUser;
      if steps[n].InstalledUser().None? {
        if exists i | 0 <= i < |prefix| ::
            prefix[i].InstalledUser().Some? && NoLaterInstall(prefix, i)
            && Run(s, prefix).currentUser == prefix[i].InstalledUser().value
        {
          var i :| 0 <= i < |prefix| && prefix[i].InstalledUser().Some? && NoLaterInstall(prefix, i)
            && Run(s, prefix).currentUser == prefix[i].InstalledUser().value;
          assert steps[i] == prefix[i];
          assert NoLaterInstall(steps, i);
        } else {
          assert NoLaterInstall(steps, -1);
        }
      } else {
        assert NoLaterInstall(steps, n);
      }
    }
  }

  /**
   * After any non-empty run, the state is loading exactly when the last step was a begin,
   * and shows an error exactly when the last step was a failed completion.
   */
  lemma {:induction false} LastStepDecidesFlags(s: AuthUiState, steps: seq<Step>)
    requires steps != []
    ensures Run(s, steps).isLoading <==> steps[|steps| - 1].IsBegin()
    ensures Run(s, steps).errorMessage.Some? <==> steps[|steps| - 1].IsFailure()
  {
  }

  /** A successful sign-in, whatever the state before, ends logged in as the returned user. */
  lemma SignInSuccessLogsIn(s: AuthUiState, p: UserProfile)
    ensures var r := Run(s, [BeginSignIn, CompleteSignIn(Success(p))]);
      r == AuthUiState(false, None, Some(p)) && r.IsLoggedIn()
  {
  }

  /** A failed flow keeps the user it started with and shows exactly one error. */
  lemma FailedFlowKeepsUser(s: AuthUiState, begin: Step, complete: Step)
    requires begin.IsBegin() && complete.IsFailure()
    ensures var r := Run(s, [begin, complete]);
      !r.isLoading && r.errorMessage.Some? && r.currentUser == s.currentUser
  {
    assert [begin, complete][..1] == [begin];
    assert [begin][..0] == [];
    assert Run(s, [begin]) == Apply(s, begin);
    assert complete.InstalledUser().None?;
  }

  /** The view model: a single state cell replaced at each step. */
  class AuthViewModel {
    var uiState: AuthUiState

    constructor ()
      ensures uiState == Initial
      ensures !uiState.isLoading && uiState.errorMessage.None? && !uiState.IsLoggedIn()
    {
      uiState := Initial;
    }

    method SignInBegin()
      modifies this
      ensures uiState == Apply(old(uiState), BeginSignIn)
    {
      uiState := Apply(uiState, BeginSignIn);
    }

    method SignInComplete(result: Result<UserProfile>)
      modifies this
      ensures uiState == Apply(old(uiState), CompleteSignIn(result))
    {
      uiState := Apply(uiState, CompleteSignIn(result));
    }

    method SignUpBegin()
      modifies this
      ensures uiState == Apply(old(uiState), BeginSignUp)
    {
      uiState := Apply(uiState, BeginSignUp);
    }

    method SignUpComplete(result: Result<UserProfile>)
      modifies this
      ensures uiState == Apply(old(uiState), CompleteSignUp(result))
    {
      uiState := Apply(uiState, CompleteSignUp(result));
    }

    method LoadCurrentUserBegin()
      modifies this
      ensures uiState == Apply(old(uiState), BeginLoadCurrentUser)
    {
      uiState := Apply(uiState, BeginLoadCurrentUser);
    }

    method LoadCurrentUserComplete(result: Result<Option<UserProfile>>)
      modifies this
      ensures uiState == Apply(old(uiState), CompleteLoadCurrentUser(result))
    {
      uiState := Apply(uiState, CompleteLoadCurrentUser(result));
    }

    /** Sign-out is synchronous and restores the initial state. */
    method SignOut()
      modifies this
      ensures uiState == Initial
      ensures uiState == Apply(old(uiState), Step.SignOut)
    {
      uiState := Apply(uiState, Step.SignOut);
    }
  }
}
