/**
 * The application shell (`App.tsx`): authentication, the current screen, the
 * analysis context shared between screens and a single toast slot. The shell's
 * state is a record (`ShellState`) with one transition function per handler; the
 * `AppShell` class holds the same four fields and its methods change them as
 * those functions say.
 */
module App {
  import opened Types
  import LoginScreen = Login

  datatype ToastKind = Success | Error | Info

  datatype Toast = Toast(message: string, kind: ToastKind)

  const LoginToast: string := "Sesión iniciada correctamente"
  const RegionToast: string := "Región cargada en módulo de análisis"
  const UploadToast: string := "Imagen procesada correctamente"
  const SettingsToast: string := "Preferencias guardadas exitosamente"

  datatype ShellState = ShellState(
    isAuthenticated: bool,
    currentView: ViewState,
    analysisData: Option<AnalysisContext>,
    toast: Option<Toast>)

  const Initial: ShellState := ShellState(false, DashboardView, None, None)

  /**
   * What the handlers maintain: a signed-out shell is on the dashboard view with no
   * analysis context, so signing in always lands on the dashboard.
   */
  ghost predicate Consistent(s: ShellState)
  {
    !s.isAuthenticated ==> s.currentView == DashboardView && s.analysisData == None
  }

  // ---------------------------------------------------------------- transitions

  /** `showToast`: the one slot is overwritten. */
  function ShowToast(s: ShellState, message: string, kind: ToastKind): ShellState
  {
    s.(toast := Some(Toast(message, kind)))
  }

  function AfterLogin(s: ShellState): ShellState
  {
    ShowToast(s.(isAuthenticated := true), LoginToast, Success)
  }

  /** The login form's `onError`: the message as an error toast. */
  function AfterLoginError(s: ShellState, message: string): ShellState
  {
    ShowToast(s, message, Error)
  }

  function AfterLogout(s: ShellState): ShellState
  {
    s.(isAuthenticated := false, currentView := DashboardView, analysisData := None)
  }

  function AfterAnalyzeRegion(s: ShellState, data: AnalysisContext): ShellState
  {
    ShowToast(s.(analysisData := Some(data), currentView := AIAnalysisView), RegionToast, Info)
  }

  function AfterUploadAnalysis(s: ShellState, data: AnalysisContext): ShellState
  {
    ShowToast(s.(analysisData := Some(data), currentView := AIAnalysisView), UploadToast, Success)
  }

  function AfterSettingsSave(s: ShellState): ShellState
  {
    ShowToast(s, SettingsToast, Success)
  }

  function AfterChangeView(s: ShellState, view: ViewState): ShellState
  {
    s.(currentView := view)
  }

  function AfterCloseToast(s: ShellState): ShellState
  {
    s.(toast := None)
  }

  // ---------------------------------------------------------------- rendering

  /** The screen `renderContent` mounts in the content area. */
  datatype Screen =
    | DashboardScreen
    | MapExplorerScreen
    | AIAnalysisScreen(data: Option<AnalysisContext>)
    | PredictionsScreen
    | UploadScreen
    | AlertsScreen
    | SettingsScreen

  /** `renderContent`: a switch over every view, with the login view falling through to the dashboard. */
  function RenderContent(view: ViewState, data: Option<AnalysisContext>): Screen
  {
    match view
    case DashboardView => DashboardScreen
    case MapExplorerView => MapExplorerScreen
    case AIAnalysisView => AIAnalysisScreen(data)
    case PredictionsView => PredictionsScreen
    case UploadView => UploadScreen
    case AlertsView => AlertsScreen
    case SettingsView => SettingsScreen
    case LoginView => DashboardScreen
  }

  /** The view a sidebar entry for a screen selects. */
  function ScreenView(screen: Screen): ViewState
  {
    match screen
    case DashboardScreen => DashboardView
    case MapExplorerScreen => MapExplorerView
    case AIAnalysisScreen(_) => AIAnalysisView
    case PredictionsScreen => PredictionsView
    case UploadScreen => UploadView
    case AlertsScreen => AlertsView
    case SettingsScreen => SettingsView
  }

  /**
   * Every view renders the screen of the same name, except the login view, which
   * renders the dashboard; only the analysis screen receives the shared context.
   */
  lemma RenderContentSpec(view: ViewState, data: Option<AnalysisContext>)
    ensures ScreenView(RenderContent(view, data)) == if view == LoginView then DashboardView else view
    ensures RenderContent(view, data).AIAnalysisScreen? <==> view == AIAnalysisView
    ensures RenderContent(view, data).AIAnalysisScreen? ==> RenderContent(view, data).data == data
  {
  }

  /** Different views (other than the login view) render different screens. */
  lemma RenderContentInjective(v1: ViewState, v2: ViewState, data: Option<AnalysisContext>)
    requires v1 != LoginView && v2 != LoginView && v1 != v2
    ensures RenderContent(v1, data) != RenderContent(v2, data)
  {
    RenderContentSpec(v1, data);
    RenderContentSpec(v2, data);
  }

  /** What the whole application shows. */
  datatype Page =
    | LoginPage(toast: Option<Toast>)
    | ShellPage(content: Screen, toast: Option<Toast>)

  function Render(s: ShellState): Page
  {
    if !s.isAuthenticated then LoginPage(s.toast)
    else ShellPage(RenderContent(s.currentView, s.analysisData), s.toast)
  }

  // ---------------------------------------------------------------- properties

  /** Every handler keeps the shell consistent (the view and context ones need a signed-in user). */
  lemma TransitionsKeepConsistent(s: ShellState, data: AnalysisContext, view: ViewState, message: string)
    requires Consistent(s)
    ensures Consistent(AfterLogin(s)) && Consistent(AfterLogout(s))
    ensures Consistent(AfterLoginError(s, message)) && Consistent(AfterSettingsSave(s))
    ensures Consistent(AfterCloseToast(s))
    ensures s.isAuthenticated ==>
              Consistent(AfterAnalyzeRegion(s, data)) && Consistent(AfterUploadAnalysis(s, data))
              && Consistent(AfterChangeView(s, view))
  {
  }

  /** Signing in from a consistent signed-out shell shows the dashboard with a success toast. */
  lemma LoginLandsOnDashboard(s: ShellState)
    requires Consistent(s) && !s.isAuthenticated
    ensures Render(AfterLogin(s)) == ShellPage(DashboardScreen, Some(Toast(LoginToast, Success)))
    ensures AfterLogin(s).currentView == s.currentView
  {
  }

  /** Signed out, only the login page is shown, whatever view was current. */
  lemma SignedOutShowsLogin(s: ShellState, view: ViewState)
    requires !s.isAuthenticated
    ensures Render(s) == Render(s.(currentView := view)) == LoginPage(s.toast)
  {
  }

  /** Logging out returns to the initial shell, except that a toast on screen stays. */
  lemma LogoutResets(s: ShellState)
    ensures AfterLogout(s) == Initial.(toast := s.toast)
    ensures Render(AfterLogout(s)) == LoginPage(s.toast)
    ensures AfterLogout(AfterLogout(s)) == AfterLogout(s)
  {
  }

  /** Signing in and straight out again restores the initial shell apart from the toast. */
  lemma LoginLogoutRoundTrip(s: ShellState)
    requires Consistent(s) && !s.isAuthenticated
    ensures AfterLogout(AfterLogin(s)) == Initial.(toast := Some(Toast(LoginToast, Success)))
  {
  }

  /**
   * Analysing a map region and finishing an upload lead to the same shell apart from
   * the toast: the region's is an "info" toast, the upload's a "success" toast.
   */
  lemma AnalyzeAndUploadAgree(s: ShellState, data: AnalysisContext)
    ensures AfterAnalyzeRegion(s, data).(toast := None) == AfterUploadAnalysis(s, data).(toast := None)
    ensures AfterAnalyzeRegion(s, data).toast.value.kind == Info
    ensures AfterUploadAnalysis(s, data).toast.value.kind == Success
  {
  }

  /** The toast is one slot: a second toast replaces the first, and closing empties it. */
  lemma ToastSingleSlot(s: ShellState, m1: string, k1: ToastKind, m2: string, k2: ToastKind)
    ensures ShowToast(ShowToast(s, m1, k1), m2, k2) == ShowToast(s, m2, k2)
    ensures AfterCloseToast(ShowToast(s, m1, k1)) == AfterCloseToast(s)
    ensures ShowToast(s, m1, k1).(toast := s.toast) == s
  {
  }

  // ---------------------------------------------------------------- the stateful shell

  class AppShell {
    var isAuthenticated: bool
    var currentView: ViewState
    var analysisData: Option<AnalysisContext>
    var toast: Option<Toast>

    function State(): ShellState
      reads this
    {
      ShellState(isAuthenticated, currentView, analysisData, toast)
    }

    ghost predicate Valid()
      reads this
    {
      Consistent(State())
    }

    constructor ()
      ensures Valid() && State() == Initial
    {
      isAuthenticated, currentView, analysisData, toast := false, DashboardView, None, None;
    }

    /** What the page shows right now. */
    function Shown(): Page
      reads this
    {
      Render(State())
    }

    method Login()
      requires Valid()
      modifies this
      ensures Valid() && State() == AfterLogin(old(State()))
    {
      isAuthenticated := true;
      toast := Some(Toast(LoginToast, Success));
    }

    method LoginError(message: string)
      requires Valid()
      modifies this
      ensures Valid() && State() == AfterLoginError(old(State()), message)
    {
      toast := Some(Toast(message, Error));
    }

    method Logout()
      requires Valid()
      modifies this
      ensures Valid() && State() == AfterLogout(old(State()))
    {
      isAuthenticated, currentView, analysisData := false, DashboardView, None;
    }

    /** Called by the map explorer, which is only mounted for a signed-in user. */
    method AnalyzeRegion(data: AnalysisContext)
      requires Valid() && isAuthenticated
      modifies this
      ensures Valid() && State() == AfterAnalyzeRegion(old(State()), data)
    {
      analysisData := Some(data);
      currentView := AIAnalysisView;
      toast := Some(Toast(RegionToast, Info));
    }

    /** Called by the upload screen, which is only mounted for a signed-in user. */
    method UploadAnalysis(data: AnalysisContext)
      requires Valid() && isAuthenticated
      modifies this
      ensures Valid() && State() == AfterUploadAnalysis(old(State()), data)
    {
      analysisData := Some(data);
      currentView := AIAnalysisView;
      toast := Some(Toast(UploadToast, Success));
    }

    /**
     * The settings screen's save callback. Its timer can fire after the screen was left,
     * even after signing out, so any state accepts it.
     */
    method SettingsSave()
      requires Valid()
      modifies this
      ensures Valid() && State() == AfterSettingsSave(old(State()))
    {
      toast := Some(Toast(SettingsToast, Success));
    }

    /** The sidebar, which is only rendered for a signed-in user. */
    method ChangeView(view: ViewState)
      requires Valid() && isAuthenticated
      modifies this
      ensures Valid() && State() == AfterChangeView(old(State()), view)
    {
      currentView := view;
    }

    /** The header's bell icon. */
    method OpenAlerts()
      requires Valid() && isAuthenticated
      modifies this
      ensures Valid() && State() == AfterChangeView(old(State()), AlertsView)
      ensures Shown() == ShellPage(AlertsScreen, toast)
    {
      currentView := AlertsView;
    }

    /** The header's profile block. */
    method OpenSettings()
      requires Valid() && isAuthenticated
      modifies this
      ensures Valid() && State() == AfterChangeView(old(State()), SettingsView)
      ensures Shown() == ShellPage(SettingsScreen, toast)
    {
      currentView := SettingsView;
    }

    /**
     * The login page's two callbacks, wired as on the signed-out page: `onLogin`
     * signs in, and `onError` shows its message as an error toast.
     */
    method Dispatch(cb: LoginScreen.Callback)
      requires Valid() && !isAuthenticated
      modifies this
      ensures Valid()
      ensures cb.OnLogin? ==> State() == AfterLogin(old(State()))
      ensures cb.OnError? ==> State() == AfterLoginError(old(State()), cb.message)
    {
      match cb
      case OnLogin => Login();
      case OnError(message) => LoginError(message);
    }

    /** The toast's close action, on either page. */
    method CloseToast()
      requires Valid()
      modifies this
      ensures Valid() && State() == AfterCloseToast(old(State()))
    {
      toast := None;
    }
  }

  /**
   * A session from a fresh shell: sign in, analyse a region, sign out. The analysis
   * screen receives the region's context, and signing out forgets it.
   */
  method AnalyzeSession(data: AnalysisContext) returns (during: Page, after: Page)
    ensures during == ShellPage(AIAnalysisScreen(Some(data)), Some(Toast(RegionToast, Info)))
    ensures after == LoginPage(Some(Toast(RegionToast, Info)))
  {
    var shell := new AppShell();
    shell.Login();
    shell.AnalyzeRegion(data);
    during := shell.Shown();
    shell.Logout();
    after := shell.Shown();
  }

  /**
   * Signing in from a fresh shell through the login form, with the request left to
   * complete: the dashboard appears exactly when the e-mail contains '@' and the
   * password has at least five characters; otherwise the login page stays, showing
   * the error the form reported.
   */
  method SignInSession(email: string, password: string) returns (page: Page)
    ensures page.ShellPage? <==> '@' in email && |password| >= 5
    ensures page.ShellPage? ==> page == ShellPage(DashboardScreen, Some(Toast(LoginToast, Success)))
    ensures page.LoginPage? ==> page.toast.Some? && page.toast.value.kind == Error
  {
    var shell := new AppShell();
    var form := new LoginScreen.LoginForm();
    form.SetEmail(email);
    form.SetPassword(password);
    var first := form.Submit();
    if first.Some? {
      shell.Dispatch(first.value);
    } else {
      var second := form.Complete();
      LoginScreen.CredentialsAcceptedSpec(email, password);
      shell.Dispatch(second);
    }
    page := shell.Shown();
  }

  /**
   * The "forgot password" link on a fresh shell: the login page stays, with the
   * administrator message as an error toast, and nobody is signed in.
   */
  method ForgotPasswordSession() returns (page: Page, signedIn: bool)
    ensures page == LoginPage(Some(Toast(LoginScreen.ContactAdmin, Error)))
    ensures !signedIn
  {
    var shell := new AppShell();
    var form := new LoginScreen.LoginForm();
    var cb := form.ForgotPassword();
    shell.Dispatch(cb);
    page := shell.Shown();
    signedIn := shell.isAuthenticated;
  }
}
