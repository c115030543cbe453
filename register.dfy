/**
 * The sign-up screen's controller: after a simulated network delay the three
 * entered fields go through three checks in a fixed order (all filled, the
 * passwords match, the password is at least six characters long) and the
 * first failing check's message is shown.
 */
module Register {
  import opened Text

  const EmptyFieldsError: string := "Tüm alanlar doldurulmalıdır"
  const MismatchError: string := "Şifreler eşleşmiyor"
  const TooShortError: string := "Şifre en az 6 karakter olmalıdır"

  /** The shortest password sign-up accepts. */
  const MinPasswordLength: int := 6

  /** `RegisterState`; every field has the default the screen starts from. */
  datatype RegisterState = RegisterState(
    isLoading: bool := false,
    error: Option<string> := None,
    registerSuccess: bool := false,
    username: string := "",
    password: string := "",
    confirmPassword: string := "")

  datatype RegisterIntent =
    | Register(username: string, password: string, confirmPassword: string)
    | NavigateToLogin

  /** Sign-up may go ahead: every field filled, the passwords equal and long enough. */
  predicate Acceptable(username: string, password: string, confirmPassword: string) {
    username != "" && password != "" && confirmPassword != ""
    && password == confirmPassword && |password| >= MinPasswordLength
  }

  /**
   * The message of the first check that fails, or None when all pass. Each
   * message is reported exactly when its check fails and every earlier one passes.
   */
  function Validate(username: string, password: string, confirmPassword: string): (r: Option<string>)
    ensures r.None? <==> Acceptable(username, password, confirmPassword)
    ensures r == Some(EmptyFieldsError) <==> (username == "" || password == "" || confirmPassword == "")
    ensures r == Some(MismatchError) <==>
              (username != "" && password != "" && confirmPassword != "" && password != confirmPassword)
    ensures r == Some(TooShortError) <==>
              (username != "" && password != "" && password == confirmPassword && |password| < MinPasswordLength)
  {
    if username == "" || password == "" || confirmPassword == "" then Some(EmptyFieldsError)
    else if password != confirmPassword then Some(MismatchError)
    else if |password| < MinPasswordLength then Some(TooShortError)
    else None
  }

  class RegisterViewModel {
    var state: RegisterState

    /** The screen never writes the entered fields back into the state: they keep their defaults. */
    ghost predicate Valid()
      reads this
    {
      state.username == "" && state.password == "" && state.confirmPassword == ""
    }

    constructor ()
      ensures Valid() && state == RegisterState()
    {
      state := RegisterState();
    }

    /** `processIntent`: the synchronous part of the handler each intent selects. */
    method ProcessIntent(intent: RegisterIntent)
      requires Valid()
      modifies this
      ensures Valid()
      ensures match intent
        case Register(_, _, _) => state == old(state).(isLoading := true, error := None)
        case NavigateToLogin => state == old(state)
    {
      match intent
      case Register(_, _, _) => RegisterBegin();
      case NavigateToLogin => NavigateToLogin();
    }

    /** `register`, before the launch: loading starts and the previous error is cleared. */
    method RegisterBegin()
      requires Valid()
      modifies this
      ensures Valid()
      ensures state == old(state).(isLoading := true, error := None)
    {
      state := state.(isLoading := true, error := None);
    }

    /**
     * `register`, after the delay: the three checks run in order and the
     * first failure ends the coroutine with its message; only when all pass
     * is sign-up marked successful, and then the error is left as it was.
     */
    method RegisterComplete(username: string, password: string, confirmPassword: string)
      requires Valid()
      modifies this
      ensures Valid()
      ensures !state.isLoading
      ensures !Acceptable(username, password, confirmPassword) ==>
                state == old(state).(isLoading := false, error := Validate(username, password, confirmPassword))
      ensures Acceptable(username, password, confirmPassword) ==>
                state == old(state).(isLoading := false, registerSuccess := true)
    {
      if username == "" || password == "" || confirmPassword == "" {
        state := state.(isLoading := false, error := Some(EmptyFieldsError));
        return;
      }
      if password != confirmPassword {
        state := state.(isLoading := false, error := Some(MismatchError));
        return;
      }
      if |password| < MinPasswordLength {
        state := state.(isLoading := false, error := Some(TooShortError));
        return;
      }
      state := state.(isLoading := false, registerSuccess := true);
    }

    /** `navigateToLogin`: navigation is the screen's business; the state is untouched. */
    method NavigateToLogin()
      requires Valid()
      modifies this
      ensures Valid() && state == old(state)
    {
    }
  }

  /** A full sign-up from the start state with acceptable input succeeds with no error. */
  method RegisterScenario(username: string, password: string, confirmPassword: string) returns (final: RegisterState)
    ensures Acceptable(username, password, confirmPassword) <==> final.registerSuccess
    ensures Acceptable(username, password, confirmPassword) <==> final.error.None?
    ensures !final.isLoading
  {
    var vm := new RegisterViewModel();
    vm.ProcessIntent(Register(username, password, confirmPassword));
    vm.RegisterComplete(username, password, confirmPassword);
    final := vm.state;
  }
}
