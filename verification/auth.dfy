/** The sign-in / sign-up screen. Authentication is simulated: every
    submission yields a fresh, not yet subscribed user. */
module Auth {
  import opened Types

  /** The display name used when no name was typed. */
  const DefaultName: string := "Usuário"

  /** The user built on submit. The password plays no part in it. */
  function MockUser(id: string, email: string, name: string): (u: User)
    ensures u.id == id && u.email == email
    ensures !u.isSubscribed
    ensures name != "" ==> u.name == name
    ensures name == "" ==> u.name == DefaultName
    ensures u.name != ""
  {
    User(id, email, if name == "" then DefaultName else name, false)
  }

  /** The form's state. The name field is only rendered in sign-up mode,
      but its value is kept while the mode is toggled. */
  class AuthForm {
    var isLogin: bool
    var email: string
    var password: string
    var name: string

    /** The form opens in login mode with every field empty. */
    constructor ()
      ensures isLogin
      ensures email == "" && password == "" && name == ""
    {
      isLogin := true;
      email := "";
      password := "";
      name := "";
    }

    /** The link under the form switches between login and sign-up. */
    method ToggleMode()
      modifies this`isLogin
      ensures isLogin == !old(isLogin)
    {
      isLogin := !isLogin;
    }

    /** Submitting never fails and changes no field: the user it hands on
        is built from the typed email and name, whatever the mode. */
    method HandleSubmit(id: string) returns (u: User)
      ensures u == MockUser(id, email, name)
    {
      u := MockUser(id, email, name);
    }
  }

  /** Logging in on a fresh form, where the name field was never shown,
      gives the default name, whatever password was typed. */
  method LoginOnFreshForm(id: string, email: string, password: string) returns (u: User)
    ensures u == User(id, email, DefaultName, false)
  {
    var form := new AuthForm();
    form.email := email;
    form.password := password;
    u := form.HandleSubmit(id);
  }

  /** A name typed in sign-up mode survives toggling back: two toggles
      return to login mode, and a login submit then carries that name. */
  method NameSurvivesToggling(id: string, email: string, name: string) returns (loginMode: bool, u: User)
    requires name != ""
    ensures loginMode
    ensures u == User(id, email, name, false)
  {
    var form := new AuthForm();
    form.ToggleMode();
    form.name := name;
    form.ToggleMode();
    form.email := email;
    loginMode := form.isLogin;
    u := form.HandleSubmit(id);
  }
}
