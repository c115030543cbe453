/**
 * The sign-in screen's controller. Its state lives in the generic base
 * controller, which starts with no state at all and only ever replaces the
 * whole record: signing in first shows loading, then, after a simulated
 * network delay, either success or a single error.
 */
module Login {
  import opened Text

  const EmptyCredentialsError: string := "Username or password cannot be empty"

  /** `LoginState`; every field has the default the screen starts from. */
  datatype LoginState = LoginState(
    isLoading: bool := false,
    error: Option<string> := None,
    loginSuccess: bool := false)

  datatype LoginIntent = Login(username: string, password: string) | NavigateToRegister

  /** A state is settled when it is not loading and not both a success and an error. */
  predicate Settled(s: LoginState) {
    !s.isLoading && !(s.loginSuccess && s.error.Some?)
  }

  /** The state sign-in ends in: success exactly when both fields are filled, otherwise the one error. */
  function Outcome(username: string, password: string): (r: LoginState)
    ensures Settled(r)
    ensures r.loginSuccess <==> username != "" && password != ""
    ensures r.error.Some? <==> !r.loginSuccess
    ensures r.error.Some? ==> r == LoginState(error := Some(EmptyCredentialsError))
    ensures r.loginSuccess ==> r == LoginState(loginSuccess := true)
  {
    if username != "" && password != "" then LoginState(loginSuccess := true)
    else LoginState(error := Some(EmptyCredentialsError))
  }

  /** The base controller's state holder together with the sign-in handlers. */
  class LoginViewModel {
    var state: Option<LoginState>

    /** Whatever the state is, success and an error never come together. */
    ghost predicate Valid()
      reads this
    {
      state.Some? ==> !(state.value.loginSuccess && state.value.error.Some?)
    }

    constructor ()
      ensures Valid() && state == None
    {
      state := None;
    }

    /** `setState`: the whole record is replaced. */
    method SetState(s: LoginState)
      modifies this
      ensures state == Some(s)
    {
      state := Some(s);
    }

    /** `processIntent`: the synchronous part of the handler each intent selects. */
    method ProcessIntent(intent: LoginIntent)
      requires Valid()
      modifies this
      ensures Valid()
      ensures match intent
        case Login(_, _) => state == Some(LoginState(isLoading := true))
        case NavigateToRegister => state == old(state)
    {
      match intent
      case Login(_, _) => LoginBegin();
      case NavigateToRegister => NavigateToRegister();
    }

    /** `login`, before the launch: any earlier success or error is discarded. */
    method LoginBegin()
      requires Valid()
      modifies this
      ensures Valid()
      ensures state == Some(LoginState(isLoading := true))
    {
      SetState(LoginState(isLoading := true));
    }

    /** `login`, after the delay: the state becomes exactly the outcome for these credentials. */
    method LoginComplete(username: string, password: string)
      requires Valid()
      modifies this
      ensures Valid()
      ensures state == Some(Outcome(username, password))
    {
      if username != "" && password != "" {
        SetState(LoginState(loginSuccess := true));
      } else {
        SetState(LoginState(error := Some(EmptyCredentialsError)));
      }
    }

    /** `navigateToRegister`: navigation is the screen's business; the state is untouched. */
    method NavigateToRegister()
      requires Valid()
      modifies this
      ensures Valid() && state == old(state)
    {
    }
  }

  /** Signing in twice ends as the second attempt alone would: nothing of the first attempt survives. */
  method LoginTwiceScenario(u1: string, p1: string, u2: string, p2: string) returns (final: Option<LoginState>)
    ensures final == Some(Outcome(u2, p2))
    ensures final.Some? && Settled(final.value)
  {
    var vm := new LoginViewModel();
    vm.ProcessIntent(Login(u1, p1));
    vm.LoginComplete(u1, p1);
    vm.ProcessIntent(Login(u2, p2));
    vm.LoginComplete(u2, p2);
    final := vm.state;
  }
}
