/** The application shell: the session check on load, the auth listener,
    the login, sign-up and logout handlers, the choice between the loading
    screen, the two auth pages and the main view, the profile built from a
    session user's metadata, and the tab bar. The identity provider's
    answers are parameters. */
module AppShell {
  import opened Values
  import opened Text
  import SignUpPage

  datatype AuthMode = LoginMode | SignUpMode | NoMode

  /** The part of a session user the shell reads. */
  datatype SessionUser = SessionUser(id: string, metadata: Option<Record>)

  /** What `getSession()` did: returned a session (whose user may be
      missing), or threw. */
  datatype SessionCheck = HasSession(user: Option<SessionUser>) | CheckThrew

  datatype View = LoadingView | SignUpView | LoginView | MainView

  /** The screen the shell renders. */
  function ViewOf(isLoading: bool, user: Option<SessionUser>, authMode: AuthMode): View {
    if isLoading then LoadingView
    else if user.None? then (if authMode == SignUpMode then SignUpView else LoginView)
    else MainView
  }

  /** Loading hides everything else; without a user the sign-up page shows
      only in sign-up mode and the login page in every other mode, including
      none; with a user the main view shows whatever the mode. */
  lemma ViewSelection(isLoading: bool, user: Option<SessionUser>, authMode: AuthMode)
    ensures ViewOf(isLoading, user, authMode) == LoadingView <==> isLoading
    ensures ViewOf(isLoading, user, authMode) == SignUpView <==>
      !isLoading && user.None? && authMode == SignUpMode
    ensures ViewOf(isLoading, user, authMode) == LoginView <==>
      !isLoading && user.None? && authMode != SignUpMode
    ensures ViewOf(isLoading, user, authMode) == MainView <==> !isLoading && user.Some?
  {
  }

  /** The profile before any session is seen. */
  function DefaultProfile(): Record {
    map[
      "name" := Str("Elite Athlete"),
      "sport" := Str("Professional"),
      "position" := Str("Performer"),
      "careerStage" := Str("Active"),
      "riskLevel" := Str("Optimized")]
  }

  /** The profile loaded from a session user's metadata: each field falls
      back to its default when the metadata field is falsy. */
  function ProfileFromMetadata(meta: Record): Record {
    map[
      "name" := OrDefault(meta, "fullName", Str("Elite Athlete")),
      "sport" := OrDefault(meta, "sport", Str("Professional")),
      "position" := OrDefault(meta, "position", Str("Performer")),
      "careerStage" := OrDefault(meta, "experience", Str("Active")),
      "riskLevel" := Str("Optimized")]
  }

  /** For any metadata, the profile has exactly the default profile's keys;
      name, sport, position and careerStage each take their own metadata
      field (fullName, sport, position, experience) when it is truthy and
      their default otherwise, whatever the other fields hold; riskLevel is
      always Optimized. */
  lemma ProfileFromMetadataFields(meta: Record)
    ensures var p := ProfileFromMetadata(meta);
      && p.Keys == DefaultProfile().Keys
      && p["name"] == (if Truthy(Get(meta, "fullName")) then meta["fullName"] else DefaultProfile()["name"])
      && p["sport"] == (if Truthy(Get(meta, "sport")) then meta["sport"] else DefaultProfile()["sport"])
      && p["position"] == (if Truthy(Get(meta, "position")) then meta["position"] else DefaultProfile()["position"])
      && p["careerStage"] == (if Truthy(Get(meta, "experience")) then meta["experience"] else DefaultProfile()["careerStage"])
      && p["riskLevel"] == Str("Optimized")
  {
  }

  /** Metadata with none of the four fields set gives the default profile,
      and riskLevel is always Optimized. */
  lemma EmptyMetadataGivesDefaults(meta: Record)
    requires !Truthy(Get(meta, "fullName")) && !Truthy(Get(meta, "sport"))
    requires !Truthy(Get(meta, "position")) && !Truthy(Get(meta, "experience"))
    ensures ProfileFromMetadata(meta) == DefaultProfile()
  {
  }

  /** For the metadata the sign-up page sends, the shell shows the full
      name, the sport, position and experience when they were filled in,
      and the defaults otherwise. */
  lemma SignUpMetadataProfile(form: SignUpPage.Form)
    ensures var p := ProfileFromMetadata(SignUpPage.Metadata(form));
      && p["name"] == Str(form.firstName + " " + form.lastName)
      && p["sport"] == (if form.sport != "" then Str(form.sport) else Str("Professional"))
      && p["position"] == (if form.position != "" then Str(form.position) else Str("Performer"))
      && p["careerStage"] == (if form.experience != "" then Str(form.experience) else Str("Active"))
      && p["riskLevel"] == Str("Optimized")
  {
    var meta := SignUpPage.Metadata(form);
    assert form.firstName + " " + form.lastName != "" by {
      assert |form.firstName + " " + form.lastName| >= 1;
    }
    assert Truthy(Get(meta, "fullName"));
  }

  /** The three auth-related state variables. */
  datatype AuthState = AuthState(authMode: AuthMode, user: Option<SessionUser>, isLoading: bool)

  /** `checkSession`: a session user is kept, otherwise (no user or a
      throw) the login mode is chosen; loading ends either way. */
  function AfterCheck(s: AuthState, check: SessionCheck): AuthState {
    match check
    case HasSession(Some(u)) => s.(user := Some(u), isLoading := false)
    case _ => s.(authMode := LoginMode, isLoading := false)
  }

  /** The auth listener: a session user is kept and the mode cleared, no
      user means logged out and the login mode. */
  function AfterAuthEvent(s: AuthState, sessionUser: Option<SessionUser>): AuthState {
    if sessionUser.Some? then s.(user := sessionUser, authMode := NoMode)
    else s.(user := None, authMode := LoginMode)
  }

  /** `handleLogin` and `handleSignUp`. */
  function AfterLogin(s: AuthState, u: SessionUser): AuthState {
    s.(user := Some(u), authMode := NoMode)
  }

  /** `handleLogout`: only a sign-out that does not throw changes anything. */
  function AfterLogout(s: AuthState, signOutThrows: bool): AuthState {
    if signOutThrows then s else s.(user := None, authMode := LoginMode)
  }

  function ViewOfState(s: AuthState): View {
    ViewOf(s.isLoading, s.user, s.authMode)
  }

  /** From the initial state, with no user yet, the session check ends the
      loading screen: the main view shows exactly when the session had a
      user, the login page otherwise, whatever the mode was. */
  lemma CheckSessionEndsLoading(s: AuthState, check: SessionCheck)
    requires s.user.None?
    ensures !AfterCheck(s, check).isLoading
    ensures ViewOfState(AfterCheck(s, check)) == MainView <==> check.HasSession? && check.user.Some?
    ensures ViewOfState(AfterCheck(s, check)) == LoginView <==> !(check.HasSession? && check.user.Some?)
  {
  }

  /** Once loading is over, an auth event shows the main view exactly when
      it carries a user and the login page otherwise. */
  lemma AuthEventView(s: AuthState, sessionUser: Option<SessionUser>)
    requires !s.isLoading
    ensures ViewOfState(AfterAuthEvent(s, sessionUser)) == MainView <==> sessionUser.Some?
    ensures ViewOfState(AfterAuthEvent(s, sessionUser)) == LoginView <==> sessionUser.None?
  {
  }

  /** Login and sign-up lead to the main view once loading is over; a
      logout that succeeds leads to the login page, one that throws leaves
      the screen as it was; logging in again after a successful logout
      restores the main view. */
  lemma LoginLogoutViews(s: AuthState, u: SessionUser, signOutThrows: bool)
    requires !s.isLoading
    ensures ViewOfState(AfterLogin(s, u)) == MainView
    ensures !signOutThrows ==> ViewOfState(AfterLogout(s, signOutThrows)) == LoginView
    ensures signOutThrows ==> AfterLogout(s, signOutThrows) == s
    ensures AfterLogin(AfterLogout(AfterLogin(s, u), false), u) == AfterLogin(s, u)
  {
  }

  datatype Feature = Feature(id: string, title: string)

  /** The feature list, in tab order. Each title is two words, written
      here as the words joined by a space (the same strings). */
  function Features(): seq<Feature> {
    [ Feature("onboarding", "Smart" + " " + "Onboarding"),
      Feature("health", "Health" + " " + "Guardian"),
      Feature("financial", "Financial" + " " + "Fortress"),
      Feature("mental", "Mental" + " " + "Performance"),
      Feature("transition", "Transition" + " " + "Center"),
      Feature("crisis", "Crisis" + " " + "Monitoring") ]
  }

  /** The tab values: the dashboard, then each feature's id. */
  function TabValues(): seq<string> {
    ["dashboard"] + seq(|Features()|, i requires 0 <= i < |Features()| => Features()[i].id)
  }

  /** A feature's tab label: `title.split(' ')[0]`. */
  function TabLabel(f: Feature): string {
    Words(f.title)[0]
  }

  /** Seven distinct tab values, the dashboard first, each feature's id at
      its position after it. */
  lemma TabValuesDistinct()
    ensures |TabValues()| == 7 && TabValues()[0] == "dashboard"
    ensures forall i :: 0 <= i < |Features()| ==> TabValues()[i + 1] == Features()[i].id
    ensures forall i, j :: 0 <= i < j < |TabValues()| ==> TabValues()[i] != TabValues()[j]
  {
    var t := TabValues();
    assert t == ["dashboard", "onboarding", "health", "financial", "mental", "transition", "crisis"];
  }

  /** The label of a feature whose title is two space-free words is the
      first of them. */
  lemma LabelOfTwoWords(f: Feature, first: string, second: string)
    requires ' ' !in first && ' ' !in second
    requires f.title == first + " " + second
    ensures TabLabel(f) == first
  {
    WordsOfCons(first, second);
  }

  /** The six tab labels. */
  lemma TabLabels()
    ensures forall i :: 0 <= i < |Features()| ==>
      TabLabel(Features()[i]) == ["Smart", "Health", "Financial", "Mental", "Transition", "Crisis"][i]
  {
    LabelOfTwoWords(Features()[0], "Smart", "Onboarding");
    LabelOfTwoWords(Features()[1], "Health", "Guardian");
    LabelOfTwoWords(Features()[2], "Financial", "Fortress");
    LabelOfTwoWords(Features()[3], "Mental", "Performance");
    LabelOfTwoWords(Features()[4], "Transition", "Center");
    LabelOfTwoWords(Features()[5], "Crisis", "Monitoring");
  }

  /** The shell's state. */
  class App {
    var activeTab: string
    var authMode: AuthMode
    var user: Option<SessionUser>
    var isLoading: bool
    var userProfile: Record

    function State(): AuthState
      reads this
    {
      AuthState(authMode, user, isLoading)
    }

    constructor ()
      ensures activeTab == "dashboard" && userProfile == DefaultProfile()
      ensures State() == AuthState(NoMode, None, true)
      ensures ViewOfState(State()) == LoadingView
    {
      activeTab := "dashboard";
      authMode := NoMode;
      user := None;
      isLoading := true;
      userProfile := DefaultProfile();
    }

    /** `checkSession`; the profile is replaced only when the session user
        carries metadata. */
    method CheckSession(check: SessionCheck)
      modifies this`authMode, this`user, this`isLoading, this`userProfile
      ensures State() == AfterCheck(old(State()), check)
      ensures userProfile ==
        if check.HasSession? && check.user.Some? && check.user.value.metadata.Some?
        then ProfileFromMetadata(check.user.value.metadata.value)
        else old(userProfile)
    {
      match check {
        case HasSession(Some(u)) =>
          user := Some(u);
          if u.metadata.Some? {
            userProfile := ProfileFromMetadata(u.metadata.value);
          }
        case _ =>
          authMode := LoginMode;
      }
      isLoading := false;
    }

    method OnAuthStateChange(sessionUser: Option<SessionUser>)
      modifies this`authMode, this`user
      ensures State() == AfterAuthEvent(old(State()), sessionUser)
    {
      if sessionUser.Some? {
        user := sessionUser;
        authMode := NoMode;
      } else {
        user := None;
        authMode := LoginMode;
      }
    }

    method HandleLogin(u: SessionUser)
      modifies this`authMode, this`user
      ensures State() == AfterLogin(old(State()), u)
    {
      user := Some(u);
      authMode := NoMode;
    }

    method HandleSignUp(u: SessionUser)
      modifies this`authMode, this`user
      ensures State() == AfterLogin(old(State()), u)
    {
      user := Some(u);
      authMode := NoMode;
    }

    method HandleLogout(signOutThrows: bool)
      modifies this`authMode, this`user
      ensures State() == AfterLogout(old(State()), signOutThrows)
    {
      if !signOutThrows {
        user := None;
        authMode := LoginMode;
      }
    }

    /** The links between the two auth pages. */
    method SwitchToLogin()
      modifies this`authMode
      ensures authMode == LoginMode
      ensures !isLoading && user.None? ==> ViewOfState(State()) == LoginView
    {
      authMode := LoginMode;
    }

    method SwitchToSignUp()
      modifies this`authMode
      ensures authMode == SignUpMode
      ensures !isLoading && user.None? ==> ViewOfState(State()) == SignUpView
    {
      authMode := SignUpMode;
    }

    /** `setActiveTab`, from the tab bar or a dashboard card. */
    method SelectTab(value: string)
      modifies this`activeTab
      ensures activeTab == value
    {
      activeTab := value;
    }

    /** `onProfileUpdate`: the onboarding wizard hands back the completed
        profile. */
    method OnProfileUpdate(profile: Record)
      modifies this`userProfile
      ensures userProfile == profile
    {
      userProfile := profile;
    }
  }
}
