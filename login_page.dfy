/** The login page: Google sign-in, then signing in to the identity service
    with the Google credential, then writing the user's document. The steps
    run in that order and the first failure skips the rest; on any failure
    the error is alerted and the current account is deleted, as a
    best-effort compensation whose own failure is ignored. */
module LoginPage {
  import opened Common
  import opened Identity

  /** What Google sign-in yields. */
  datatype GoogleTokens = GoogleTokens(idToken: string, accessToken: string, name: Option<string>, email: Option<string>)

  datatype Step = GoogleSignIn | CredentialSignIn | StoreUserDocument

  const AllSteps: seq<Step> := [GoogleSignIn, CredentialSignIn, StoreUserDocument]

  /** The steps a sign-in attempt ran, in order, and the error that ended it,
      if any. */
  datatype SignInRun = SignInRun(attempted: seq<Step>, failure: Option<Error>)

  /** The step sequence of `signInWithGoogle`. `google` is the outcome of the
      Google sign-in, `provider` the identity service's answer for an ID
      token and access token pair, `store` the error writing the user
      document throws, if any. The steps run in order, every run starts
      with Google sign-in, and a failing step is the last one run. */
  function RunSteps(google: Result<GoogleTokens>, provider: (string, string) -> Result<AuthUser>, store: Option<Error>): (r: SignInRun)
    ensures 1 <= |r.attempted| <= |AllSteps| && r.attempted == AllSteps[..|r.attempted|]
    ensures r.failure.None? <==>
      google.Success? && provider(google.value.idToken, google.value.accessToken).Success? && store.None?
    ensures r.failure.None? ==> r.attempted == AllSteps
    ensures google.Failure? ==> r == SignInRun([GoogleSignIn], Some(google.error))
    ensures google.Success? && provider(google.value.idToken, google.value.accessToken).Failure? ==>
      r == SignInRun([GoogleSignIn, CredentialSignIn], Some(provider(google.value.idToken, google.value.accessToken).error))
    ensures google.Success? && provider(google.value.idToken, google.value.accessToken).Success? && store.Some? ==>
      r == SignInRun(AllSteps, store)
  {
    match google
    case Failure(e) => SignInRun([GoogleSignIn], Some(e))
    case Success(tokens) =>
      match provider(tokens.idToken, tokens.accessToken)
      case Failure(e) => SignInRun([GoogleSignIn, CredentialSignIn], Some(e))
      case Success(_) => SignInRun(AllSteps, store)
  }

  /** The current user once the steps have run, before any compensation: the
      account signed in with the Google credential when that step succeeds,
      otherwise whoever was signed in before. */
  function SignedInAfterSteps(google: Result<GoogleTokens>, provider: (string, string) -> Result<AuthUser>, before: Option<AuthUser>): (u: Option<AuthUser>)
    ensures google.Success? && provider(google.value.idToken, google.value.accessToken).Success? ==>
      u == Some(provider(google.value.idToken, google.value.accessToken).value)
    ensures google.Failure? || provider(google.value.idToken, google.value.accessToken).Failure? ==> u == before
  {
    if google.Failure? then before
    else
      var answer := provider(google.value.idToken, google.value.accessToken);
      if answer.Success? then Some(answer.value) else before
  }

  class LoginPageViewModel {
    var showAlert: bool
    var alertTitle: string

    constructor ()
      ensures !showAlert && alertTitle == ""
    {
      showAlert := false;
      alertTitle := "";
    }

    /** `showAlertTitle`. */
    method ShowAlertTitle(title: string)
      modifies this`showAlert, this`alertTitle
      ensures showAlert && alertTitle == title
    {
      showAlert := true;
      alertTitle := title;
    }

    /** `signInWithGoogle`. `deleteFailure` is what deleting the account
        throws, if it throws. Returns the user document written, if any, and
        whether the compensating delete was attempted. */
    method SignInWithGoogle(
      auth: AuthSession,
      google: Result<GoogleTokens>,
      provider: (string, string) -> Result<AuthUser>,
      store: Option<Error>,
      deleteFailure: Option<Error>)
      returns (storedDocument: Option<AuthUser>, deleteAttempted: bool)
      modifies this`showAlert, this`alertTitle, auth
      ensures var run := RunSteps(google, provider, store);
        var signedIn := SignedInAfterSteps(google, provider, old(auth.currentUser));
        && (run.failure.None? <==> storedDocument.Some?)
        && (deleteAttempted <==> run.failure.Some?)
        && (run.failure.None? ==>
              && storedDocument == signedIn
              && auth.currentUser == signedIn
              && auth.deletedAccounts == old(auth.deletedAccounts)
              && showAlert == old(showAlert) && alertTitle == old(alertTitle))
        && (run.failure.Some? ==>
              && showAlert && alertTitle == LocalizedDescription(run.failure.value)
              && (signedIn.None? || deleteFailure.Some? ==>
                    auth.currentUser == signedIn && auth.deletedAccounts == old(auth.deletedAccounts))
              && (signedIn.Some? && deleteFailure.None? ==>
                    auth.currentUser == None && auth.deletedAccounts == old(auth.deletedAccounts) + [signedIn.value.uid]))
    {
      var failure: Option<Error> := None;
      storedDocument := None;
      if google.Failure? {
        failure := Some(google.error);
      } else {
        var tokens := google.value;
        var signedIn := auth.SignInWithCredential(provider(tokens.idToken, tokens.accessToken));
        if signedIn.Failure? {
          failure := Some(signedIn.error);
        } else if store.Some? {
          failure := store;
        } else {
          storedDocument := Some(signedIn.value);
        }
      }
      deleteAttempted := false;
      if failure.Some? {
        ShowAlertTitle(LocalizedDescription(failure.value));
        var _ := auth.DeleteUser(deleteFailure);
        deleteAttempted := true;
        ShowAlertTitle(LocalizedDescription(failure.value));
      }
    }
  }

  /** The login button: after the attempt, the login cover stays up exactly
      when no user is signed in. A complete sign-in dismisses it; a failed
      one whose compensating delete succeeds keeps it up; a failed one whose
      delete fails keeps it up only when nobody was signed in. The alert is
      the failure's description, or untouched on success. */
  method LoginTapped(
    vm: LoginPageViewModel,
    auth: AuthSession,
    google: Result<GoogleTokens>,
    provider: (string, string) -> Result<AuthUser>,
    store: Option<Error>,
    deleteFailure: Option<Error>)
    returns (userIsNotLogIn: bool)
    modifies vm, auth
    ensures userIsNotLogIn <==> auth.currentUser.None?
    ensures var run := RunSteps(google, provider, store);
      var signedIn := SignedInAfterSteps(google, provider, old(auth.currentUser));
      && (run.failure.None? ==>
            && !userIsNotLogIn && auth.currentUser == signedIn
            && vm.showAlert == old(vm.showAlert) && vm.alertTitle == old(vm.alertTitle))
      && (run.failure.Some? ==> vm.showAlert && vm.alertTitle == LocalizedDescription(run.failure.value))
      && (run.failure.Some? && deleteFailure.None? ==> userIsNotLogIn)
      && (run.failure.Some? && deleteFailure.Some? ==> (userIsNotLogIn <==> signedIn.None?))
  {
    var _, _ := vm.SignInWithGoogle(auth, google, provider, store, deleteFailure);
    userIsNotLogIn := !auth.UserIsLogin();
  }
}
