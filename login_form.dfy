/**
  * The login page: two controlled inputs, a show-password toggle and a submit
  * handler that passes the credentials to its container.
  */
module LoginForm {
  import opened Wrappers

  /** The arguments of the `onLogin(email, password)` callback. */
  datatype Credentials = Credentials(email: string, password: string)

  /** The state of `LoginPage`. */
  class LoginPage {
    var email: string
    var password: string
    var showPassword: bool
    var isLoading: bool

    /** Both inputs start empty and both flags off. */
    constructor ()
      ensures email == "" && password == ""
      ensures !showPassword && !isLoading
    {
      email := "";
      password := "";
      showPassword := false;
      isLoading := false;
    }

    /** The change handler of the email input. */
    method SetEmail(value: string)
      modifies this`email
      ensures email == value
    {
      email := value;
    }

    /** The change handler of the password input. */
    method SetPassword(value: string)
      modifies this`password
      ensures password == value
    {
      password := value;
    }

    /** The eye button: flips whether the password is shown. */
    method ToggleShowPassword()
      modifies this`showPassword
      ensures showPassword == !old(showPassword)
    {
      showPassword := !showPassword;
    }

    /**
      * `handleSubmit`. With an empty email or password it returns at once;
      * otherwise it raises the loading flag, calls `onLogin` once with the
      * current inputs (returned here as `login`) and lowers the flag again.
      */
    method HandleSubmit() returns (login: Option<Credentials>)
      modifies this`isLoading
      ensures email == "" || password == "" ==> login == None && isLoading == old(isLoading)
      ensures email != "" && password != "" ==> login == Some(Credentials(email, password)) && !isLoading
    {
      if email == "" || password == "" {
        return None;
      }
      isLoading := true;
      login := Some(Credentials(email, password));
      isLoading := false;
    }
  }

  /** Pressing the eye button twice restores what was shown. */
  method ToggleTwice(page: LoginPage)
    modifies page`showPassword
    ensures page.showPassword == old(page.showPassword)
  {
    page.ToggleShowPassword();
    page.ToggleShowPassword();
  }
}
