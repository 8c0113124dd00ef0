// The sign-in screen (src/components/AuthPage.tsx): four role cards; picking
// one signs in as the first known user with that role, falling back to the
// first user of all, with a loading screen while the sign-in is pending.

module AuthPage {
  import opened Types
  import opened Seqs
  import opened MockData
  import opened App

  /**
   * `users.find(u => u.role === role) || users[0]`. An empty list has no
   * first user (JavaScript would pass `undefined` on).
   */
  function RoleLogin(users: seq<User>, role: Role): (r: Option<User>)
    ensures r.None? <==> users == []
    ensures (exists i :: 0 <= i < |users| && users[i].role == role) ==>
              r.Some? && r.value.role == role &&
              exists j :: 0 <= j < |users| && users[j] == r.value && forall k :: 0 <= k < j ==> users[k].role != role
    ensures users != [] && (forall i :: 0 <= i < |users| ==> users[i].role != role) ==> r == Some(users[0])
  {
    match Find(users, (u: User) => u.role == role)
    case Some(u) => Some(u)
    case None => if users == [] then None else Some(users[0])
  }

  /** A role card. */
  datatype RoleOption = RoleOption(role: Role, title: string, description: string)

  function RoleOptions(): (options: seq<RoleOption>)
    ensures |options| == 4
  {
    [ RoleOption(Commuter, "Commuter", "Track buses, plan trips, and travel safely"),
      RoleOption(SuperAdmin, "Super Admin", "Full system control and analytics"),
      RoleOption(MunicipalAdmin, "Municipal Admin", "Manage local stops and routes"),
      RoleOption(OperatorAdmin, "Operator Admin", "Manage fleet and drivers") ]
  }

  /** There is exactly one card per role. */
  lemma RoleOptionsCoverRoles(role: Role)
    ensures exists i :: 0 <= i < |RoleOptions()| && RoleOptions()[i].role == role
    ensures forall i, j :: 0 <= i < j < |RoleOptions()| ==> RoleOptions()[i].role != RoleOptions()[j].role
  {
    var k := match role
      case Commuter => 0
      case SuperAdmin => 1
      case MunicipalAdmin => 2
      case OperatorAdmin => 3;
    assert RoleOptions()[k].role == role;
  }

  /** With the built-in users every card signs somebody in. */
  lemma MockLoginsExist(role: Role)
    ensures RoleLogin(MockUsers, role).Some?
  {
  }

  /** No operator admin is among the built-in users, so that card signs in the commuter. */
  lemma OperatorCardSignsInCommuter()
    ensures RoleLogin(MockUsers, OperatorAdmin) == Some(MockUsers[0])
    ensures MockUsers[0].role == Commuter
  {
    assert forall i :: 0 <= i < |MockUsers| ==> MockUsers[i].role != OperatorAdmin;
  }

  /** The three other cards sign in the built-in user with that role. */
  lemma OtherCardsSignInTheirRole()
    ensures RoleLogin(MockUsers, Commuter) == Some(MockUsers[0])
    ensures RoleLogin(MockUsers, SuperAdmin) == Some(MockUsers[1])
    ensures RoleLogin(MockUsers, MunicipalAdmin) == Some(MockUsers[2])
  {
    assert MockUsers[0].role == Commuter;
    assert MockUsers[1].role == SuperAdmin && MockUsers[0].role != SuperAdmin;
    assert MockUsers[2].role == MunicipalAdmin && MockUsers[0].role != MunicipalAdmin && MockUsers[1].role != MunicipalAdmin;
  }

  /** What the page draws. */
  datatype AuthView = LoggingIn | RolePicker(options: seq<RoleOption>)

  /**
   * The page's state. `handleRoleSelect` is split at its delay: the first
   * half shows the loading screen, the second signs in and hides it.
   */
  class AuthPageState {
    const app: AppState
    var isLoading: bool
    /** The role whose sign-in is under way. */
    var pendingRole: Option<Role>

    ghost predicate Valid()
      reads this
    {
      isLoading <==> pendingRole.Some?
    }

    constructor(app: AppState)
      ensures Valid() && this.app == app && !isLoading && pendingRole == None
    {
      this.app := app;
      isLoading, pendingRole := false, None;
    }

    /** A click on a card; the cards exist only while the page is not loading. */
    method BeginRoleSelect(role: Role)
      requires Valid() && !isLoading
      modifies this
      ensures Valid() && isLoading && pendingRole == Some(role)
    {
      isLoading, pendingRole := true, Some(role);
    }

    /** After the delay: sign in once as the user chosen for the role and leave the loading screen. */
    method CompleteRoleSelect()
      requires Valid() && isLoading
      modifies this, app, app.storage
      ensures Valid() && !isLoading
      ensures app.currentUser == RoleLogin(MockUsers, old(pendingRole).value)
      ensures app.storage.items == old(app.storage.items)[SessionKey := app.currentUser.value]
      ensures app.loginCount == old(app.loginCount) + 1
      ensures app.loading == old(app.loading)
    {
      var user := RoleLogin(MockUsers, pendingRole.value);
      MockLoginsExist(pendingRole.value);
      app.HandleLogin(user.value);
      isLoading, pendingRole := false, None;
    }

    function Render(): (v: AuthView)
      reads this
      ensures v == LoggingIn <==> isLoading
      ensures v.RolePicker? ==> v.options == RoleOptions()
    {
      if isLoading then LoggingIn else RolePicker(RoleOptions())
    }
  }

  /** A whole sign-in from the page: the shell then shows the screen for the user the card chose. */
  method SignInFromCard(storage: LocalStorage, role: Role) returns (screen: Screen)
    modifies storage
    ensures screen == ScreenFor(false, RoleLogin(MockUsers, role))
    ensures role == OperatorAdmin ==> screen == UserAppScreen(MockUsers[0])
  {
    var app := new AppState(storage);
    app.Mount();
    var page := new AuthPageState(app);
    page.BeginRoleSelect(role);
    page.CompleteRoleSelect();
    screen := app.Render();
    OperatorCardSignsInCommuter();
  }
}
