/**
  * The root component: the authentication phase, the signed-in user, the
  * active navigation tab, and what each combination renders.
  */
module Shell {
  import opened Wrappers
  import opened Text
  import RegisterForm
  import LoginForm

  datatype AuthState = Login | Register | Authenticated

  datatype UserData = UserData(name: string, role: string, company: string)

  /** The user shown before anyone signs in and after the demo login. */
  const DemoUser := UserData("John Doe", "Logistics Manager", "ABC Manufacturing")

  const DemoEmail := "demo@loendersloot.com"
  const DemoPassword := "demo123"
  const LoginErrorMessage := "Invalid email or password. Try demo@loendersloot.com / demo123"

  /** The only credentials `handleLogin` accepts. */
  predicate AcceptedCredentials(email: string, password: string) {
    email == DemoEmail && password == DemoPassword
  }

  // Navigation

  datatype MenuItem = MenuItem(id: string, title: string)

  /** The sidebar entries, in display order. */
  const MenuItems := [
    MenuItem("dashboard", "Dashboard"),
    MenuItem("inventory", "Inventory"),
    MenuItem("orders", "Orders"),
    MenuItem("documents", "Documents"),
    MenuItem("communication", "Support"),
    MenuItem("settings", "Settings")
  ]

  /** The feature view the main area shows; the dashboard is given the user. */
  datatype View =
    | DashboardView(user: UserData)
    | InventoryView
    | OrdersView
    | DocumentsView
    | CommunicationView
    | SettingsView

  /** `renderContent`: a switch on the tab id whose default is the dashboard. */
  function RenderContent(activeTab: string, user: UserData): View {
    if activeTab == "inventory" then InventoryView
    else if activeTab == "orders" then OrdersView
    else if activeTab == "documents" then DocumentsView
    else if activeTab == "communication" then CommunicationView
    else if activeTab == "settings" then SettingsView
    else DashboardView(user)
  }

  /** The sidebar label that belongs to each view. */
  function ViewTitle(view: View): string {
    match view
    case DashboardView(_) => "Dashboard"
    case InventoryView => "Inventory"
    case OrdersView => "Orders"
    case DocumentsView => "Documents"
    case CommunicationView => "Support"
    case SettingsView => "Settings"
  }

  /** `items.find(item => item.id === id)`: the first entry with that id, if any. */
  function FindMenuItem(items: seq<MenuItem>, id: string): (found: Option<MenuItem>)
    ensures found.Some? ==> found.value in items && found.value.id == id
    ensures found.None? <==> forall k :: 0 <= k < |items| ==> items[k].id != id
    ensures found.Some? ==> exists k :: 0 <= k < |items| && items[k] == found.value &&
                                        forall j :: 0 <= j < k ==> items[j].id != id
  {
    FindFromSpec(items, id, 0);
    FindFrom(items, id, 0)
  }

  /** The search of `find`, from index `i` on. */
  function FindFrom(items: seq<MenuItem>, id: string, i: nat): Option<MenuItem>
    requires i <= |items|
    decreases |items| - i
  {
    if i == |items| then None
    else if items[i].id == id then Some(items[i])
    else FindFrom(items, id, i + 1)
  }

  /** The search from `i` yields the first entry at or after `i` with the id, or nothing if there is none. */
  lemma {:induction false} FindFromSpec(items: seq<MenuItem>, id: string, i: nat)
    requires i <= |items|
    ensures FindFrom(items, id, i).Some? ==>
      exists k :: i <= k < |items| && items[k] == FindFrom(items, id, i).value && items[k].id == id &&
                  forall j :: i <= j < k ==> items[j].id != id
    ensures FindFrom(items, id, i).None? <==> forall k :: i <= k < |items| ==> items[k].id != id
    decreases |items| - i
  {
    if i < |items| && items[i].id != id {
      FindFromSpec(items, id, i + 1);
    }
  }

  /** The page heading: the label of the active tab's entry, or "Dashboard" when there is none. */
  function HeaderLabel(activeTab: string): string {
    match FindMenuItem(MenuItems, activeTab)
    case Some(item) => if item.title != "" then item.title else "Dashboard"
    case None => "Dashboard"
  }

  /**
    * The heading and the content never disagree: for every tab id, known or
    * not, the heading is the title of the view that is rendered.
    */
  lemma HeaderMatchesContent(activeTab: string, user: UserData)
    ensures HeaderLabel(activeTab) == ViewTitle(RenderContent(activeTab, user))
  {
  }

  /** An id that no entry has renders the dashboard under the heading "Dashboard". */
  lemma UnknownTabFallsBack(activeTab: string, user: UserData)
    requires forall k :: 0 <= k < |MenuItems| ==> MenuItems[k].id != activeTab
    ensures RenderContent(activeTab, user) == DashboardView(user)
    ensures HeaderLabel(activeTab) == "Dashboard"
  {
    assert MenuItems[1].id == "inventory" && MenuItems[2].id == "orders";
    assert MenuItems[3].id == "documents" && MenuItems[4].id == "communication";
    assert MenuItems[5].id == "settings";
  }

  // Initials

  /** `n[0]`, where the first character of an empty word is `undefined` and joins as nothing. */
  function FirstChar(word: string): string {
    if |word| == 0 then "" else [word[0]]
  }

  /** `words.map(n => n[0]).join('')`. */
  function JoinFirstChars(words: seq<string>): string
    decreases |words|
  {
    if |words| == 0 then "" else FirstChar(words[0]) + JoinFirstChars(words[1..])
  }

  /** `name.split(' ').map(n => n[0]).join('')`, the avatar text. */
  function Initials(name: string): string {
    JoinFirstChars(Split(name, ' '))
  }

  /**
    * The characters of `s` that begin a word: a non-space character at the
    * start, or after a space. `atWordStart` says whether the previous
    * character was a space (or there was none).
    */
  function WordStarts(s: string, atWordStart: bool): string
    decreases |s|
  {
    if |s| == 0 then ""
    else (if atWordStart && s[0] != ' ' then [s[0]] else "") + WordStarts(s[1..], s[0] == ' ')
  }

  lemma {:induction false} JoinFirstCharsAppend(a: seq<string>, b: seq<string>)
    ensures JoinFirstChars(a + b) == JoinFirstChars(a) + JoinFirstChars(b)
    decreases |a|
  {
    if |a| == 0 {
      assert a + b == b;
    } else {
      assert (a + b)[0] == a[0];
      assert (a + b)[1..] == a[1..] + b;
      JoinFirstCharsAppend(a[1..], b);
      assert JoinFirstChars(a + b) == FirstChar(a[0]) + JoinFirstChars(a[1..] + b);
    }
  }

  lemma {:induction false} WordStartsOfSplit(s: string)
    ensures WordStarts(s, true) == JoinFirstChars(Split(s, ' '))
    ensures WordStarts(s, false) == JoinFirstChars(Split(s, ' ')[1..])
    decreases |s|
  {
    if |s| > 0 {
      WordStartsOfSplit(s[1..]);
      var rest := Split(s[1..], ' ');
      var parts := Split(s, ' ');
      if s[0] == ' ' {
        assert parts == [""] + rest;
        assert parts[1..] == rest;
      } else {
        assert parts == [[s[0]] + rest[0]] + rest[1..];
        assert parts[1..] == rest[1..];
        assert FirstChar(parts[0]) == [s[0]];
      }
    }
  }

  /** The initials are the first characters of the non-empty space-separated words, in order. */
  lemma InitialsAreWordStarts(name: string)
    ensures Initials(name) == WordStarts(name, true)
  {
    WordStartsOfSplit(name);
  }

  /** A registered user named "first last", neither name containing a space, gets two initials. */
  lemma RegisteredInitials(firstName: string, lastName: string)
    requires firstName != "" && lastName != ""
    requires ' ' !in firstName && ' ' !in lastName
    ensures Initials(firstName + " " + lastName) == [firstName[0], lastName[0]]
  {
    SplitAround(firstName, lastName, ' ');
    SplitWithoutSeparator(firstName, ' ');
    SplitWithoutSeparator(lastName, ' ');
    JoinFirstCharsAppend([firstName], [lastName]);
    assert [firstName] + [lastName] == [firstName, lastName];
  }

  /** What the root component renders. */
  datatype Screen =
    | LoginScreen(error: string)
    | RegisterScreen(error: string)
    | Workspace(heading: string, initials: string, content: View)

  /** The state of `App`. */
  class App {
    var activeTab: string
    var authState: AuthState
    var authError: string
    var userData: UserData

    /** The app starts on the login page on the dashboard tab, with no error. */
    constructor ()
      ensures activeTab == "dashboard" && authState == Login && authError == ""
      ensures userData == DemoUser
    {
      activeTab := "dashboard";
      authState := Login;
      authError := "";
      userData := DemoUser;
    }

    /** What the component returns for its current state. */
    function Render(): (screen: Screen)
      reads this
      ensures authState == Login <==> screen.LoginScreen?
      ensures authState == Register <==> screen.RegisterScreen?
      ensures screen.LoginScreen? || screen.RegisterScreen? ==> screen.error == authError
      ensures screen.Workspace? ==> screen.heading == ViewTitle(screen.content)
    {
      match authState
      case Login => LoginScreen(authError)
      case Register => RegisterScreen(authError)
      case Authenticated =>
        HeaderMatchesContent(activeTab, userData);
        Workspace(HeaderLabel(activeTab), Initials(userData.name), RenderContent(activeTab, userData))
    }

    /**
      * `handleLogin`: the demo credentials sign the demo user in and clear the
      * error; anything else only sets the error message.
      */
    method HandleLogin(email: string, password: string)
      modifies this`authState, this`authError, this`userData
      ensures AcceptedCredentials(email, password) ==>
        authState == Authenticated && authError == "" && userData == DemoUser
      ensures !AcceptedCredentials(email, password) ==>
        authState == old(authState) && authError == LoginErrorMessage && userData == old(userData)
    {
      if email == DemoEmail && password == DemoPassword {
        userData := DemoUser;
        authState := Authenticated;
        authError := "";
      } else {
        authError := LoginErrorMessage;
      }
    }

    /** `handleRegister`: builds the user from the form and always signs in. */
    method HandleRegister(form: RegisterForm.FormData)
      modifies this`authState, this`authError, this`userData
      ensures userData.name == form.firstName + " " + form.lastName
      ensures userData.role == form.role && userData.company == form.company
      ensures authState == Authenticated && authError == ""
    {
      userData := UserData(form.firstName + " " + form.lastName, form.role, form.company);
      authState := Authenticated;
      authError := "";
    }

    /** `handleLogout`: back to the login page on the dashboard tab, with no error. */
    method HandleLogout()
      modifies this`authState, this`activeTab, this`authError
      ensures authState == Login && activeTab == "dashboard" && authError == ""
    {
      authState := Login;
      activeTab := "dashboard";
      authError := "";
    }

    /** The login page's link to registration; the error stays as it was. */
    method SwitchToRegister()
      modifies this`authState
      ensures authState == Register
    {
      authState := Register;
    }

    /** The registration page's link back to login; the error stays as it was. */
    method SwitchToLogin()
      modifies this`authState
      ensures authState == Login
    {
      authState := Login;
    }

    /** A sidebar entry was clicked. */
    method SelectTab(id: string)
      modifies this`activeTab
      ensures activeTab == id
    {
      activeTab := id;
    }
  }

  /** A submit on the login page, whose `onLogin` is `handleLogin`. */
  method SubmitLogin(app: App, page: LoginForm.LoginPage)
    modifies app`authState, app`authError, app`userData, page`isLoading
    ensures page.email == "" || page.password == "" ==>
      app.authState == old(app.authState) && app.authError == old(app.authError) &&
      app.userData == old(app.userData)
    ensures page.email != "" && page.password != "" && AcceptedCredentials(page.email, page.password) ==>
      app.authState == Authenticated && app.authError == "" && app.userData == DemoUser
    ensures page.email != "" && page.password != "" && !AcceptedCredentials(page.email, page.password) ==>
      app.authState == old(app.authState) && app.authError == LoginErrorMessage &&
      app.userData == old(app.userData)
    ensures page.email == "" || page.password == "" ==> page.isLoading == old(page.isLoading)
    ensures page.email != "" && page.password != "" ==> !page.isLoading
  {
    var login := page.HandleSubmit();
    if login.Some? {
      app.HandleLogin(login.value.email, login.value.password);
    }
  }

  /** A submit on the registration page, whose `onRegister` is `handleRegister`. */
  method SubmitRegistration(app: App, page: RegisterForm.RegisterPage)
    modifies app`authState, app`authError, app`userData, page`isLoading
    ensures !(page.acceptTerms && page.acceptPrivacy) ==>
      app.authState == old(app.authState) && app.authError == old(app.authError) &&
      app.userData == old(app.userData)
    ensures !(page.acceptTerms && page.acceptPrivacy) ==> page.isLoading == old(page.isLoading)
    ensures page.acceptTerms && page.acceptPrivacy ==>
      app.authState == Authenticated && app.authError == "" &&
      app.userData == UserData(page.formData.firstName + " " + page.formData.lastName,
                               page.formData.role, page.formData.company) &&
      !page.isLoading
  {
    var registered := page.HandleSubmit();
    if registered.Some? {
      app.HandleRegister(registered.value);
    }
  }
}
