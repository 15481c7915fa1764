/**
  * The sign-up form (app/signup/page.tsx): the terms check, the e-mail
  * sign-up and the Google sign-in button, and how they drive the `error`
  * and `loading` state. The identity service's answers are inputs.
  */
module SignUpPage {
  import opened Wrappers

  const TermsErrorText := "You must agree to the terms and conditions"
  const UnexpectedErrorText := "An unexpected error occurred"
  const SuccessPath := "/signup-success"

  /** What `supabase.auth.signUp` did: returned no error, returned an error, or threw. */
  datatype SignUpOutcome = SignedUp | SignUpRejected(message: string) | SignUpThrew

  /**
    * What `signInWithOAuth` did: started the redirect, returned an error, or
    * threw (the handler has no `catch`, so a throw changes nothing).
    */
  datatype OAuthOutcome = Redirecting | OAuthRejected(message: string) | OAuthThrew

  /** The form's state: the checkbox, `error`, `loading` and the pages `router.push` was sent to. */
  class SignUp {
    var agreedToTerms: bool
    var error: Option<string>
    var loading: bool
    var navigations: seq<string>

    constructor ()
      ensures !agreedToTerms && error == None && !loading && navigations == []
    {
      agreedToTerms := false;
      error := None;
      loading := false;
      navigations := [];
    }

    /** The checkbox's `onCheckedChange`. */
    method SetAgreedToTerms(checked: bool)
      modifies this`agreedToTerms
      ensures agreedToTerms == checked
    {
      agreedToTerms := checked;
    }

    /**
      * `handleSignUp` up to the `signUp` call. The terms check returns
      * before the `try`, so it leaves `loading` as it was. `called` tells
      * whether the identity service is asked.
      */
    method BeginSignUp() returns (called: bool)
      modifies this`error, this`loading
      ensures called == old(agreedToTerms)
      ensures !called ==> error == Some(TermsErrorText) && loading == old(loading)
      ensures called ==> error == None && loading
    {
      if !agreedToTerms {
        error := Some(TermsErrorText);
        return false;
      }
      loading := true;
      error := None;
      called := true;
    }

    /** The rest of `handleSignUp`: the outcome decides `error` and navigation; the `finally` ends loading. */
    method FinishSignUp(outcome: SignUpOutcome)
      modifies this`error, this`loading, this`navigations
      ensures outcome == SignedUp ==> navigations == old(navigations) + [SuccessPath] && error == old(error)
      ensures outcome.SignUpRejected? ==> error == Some(outcome.message) && navigations == old(navigations)
      ensures outcome == SignUpThrew ==> error == Some(UnexpectedErrorText) && navigations == old(navigations)
      ensures !loading
    {
      match outcome {
        case SignedUp =>
          navigations := navigations + [SuccessPath];
        case SignUpRejected(message) =>
          error := Some(message);
        case SignUpThrew =>
          error := Some(UnexpectedErrorText);
      }
      loading := false;
    }

    /** A whole submit with nothing interleaved. */
    method HandleSignUp(outcome: SignUpOutcome) returns (called: bool)
      modifies this`error, this`loading, this`navigations
      ensures called == old(agreedToTerms)
      ensures !called ==>
                error == Some(TermsErrorText) && loading == old(loading) && navigations == old(navigations)
      ensures called && outcome == SignedUp ==> error == None && navigations == old(navigations) + [SuccessPath]
      ensures called && outcome.SignUpRejected? ==> error == Some(outcome.message) && navigations == old(navigations)
      ensures called && outcome == SignUpThrew ==> error == Some(UnexpectedErrorText) && navigations == old(navigations)
      ensures called ==> !loading
    {
      called := BeginSignUp();
      if called {
        FinishSignUp(outcome);
      }
    }

    /** The Google button's handler up to the `signInWithOAuth` call. */
    method BeginGoogleSignIn()
      modifies this`loading
      ensures loading
    {
      loading := true;
    }

    /** The rest of the Google handler: only a returned error shows a message and ends loading. */
    method FinishGoogleSignIn(outcome: OAuthOutcome)
      modifies this`error, this`loading
      ensures outcome.OAuthRejected? ==> error == Some(outcome.message) && !loading
      ensures !outcome.OAuthRejected? ==> error == old(error) && loading == old(loading)
    {
      if outcome.OAuthRejected? {
        error := Some(outcome.message);
        loading := false;
      }
    }

    /** A whole click on the Google button: on success the page stays loading while the browser is redirected. */
    method HandleGoogleSignIn(outcome: OAuthOutcome)
      modifies this`error, this`loading
      ensures outcome.OAuthRejected? ==> error == Some(outcome.message) && !loading
      ensures !outcome.OAuthRejected? ==> error == old(error) && loading
    {
      BeginGoogleSignIn();
      FinishGoogleSignIn(outcome);
    }
  }
}
