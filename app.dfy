// The application shell (src/App.tsx): the session kept in the browser's
// key-value store under 'bolt_user', restored on mount, written on login and
// removed on logout, and the choice of screen from the session state.

module App {
  import opened Types

  /** The key the session is stored under. */
  const SessionKey: string := "bolt_user"

  /** The browser's `localStorage`, holding users; the JSON encoding in between is left abstract. */
  class LocalStorage {
    var items: map<string, User>

    constructor(items: map<string, User>)
      ensures this.items == items
    {
      this.items := items;
    }

    /** `getItem(key)`, nothing when the key is absent. */
    method GetItem(key: string) returns (r: Option<User>)
      ensures r.Some? <==> key in items
      ensures r.Some? ==> r.value == items[key]
    {
      if key in items {
        r := Some(items[key]);
      } else {
        r := None;
      }
    }

    method SetItem(key: string, value: User)
      modifies this
      ensures items == old(items)[key := value]
    {
      items := items[key := value];
    }

    method RemoveItem(key: string)
      modifies this
      ensures items == old(items) - {key}
    {
      items := items - {key};
    }
  }

  /** What the shell renders. */
  datatype Screen = Spinner | AuthScreen | UserAppScreen(user: User) | AdminPanelScreen(user: User)

  /** The render branches of `App`: spinner while loading, sign-in without a user, then by role. */
  function ScreenFor(loading: bool, currentUser: Option<User>): (s: Screen)
    ensures loading ==> s == Spinner
    ensures !loading && currentUser.None? ==> s == AuthScreen
    ensures !loading && currentUser.Some? && currentUser.value.role == Commuter ==> s == UserAppScreen(currentUser.value)
    ensures !loading && currentUser.Some? && currentUser.value.role != Commuter ==> s == AdminPanelScreen(currentUser.value)
  {
    if loading then Spinner
    else if currentUser.None? then AuthScreen
    else if currentUser.value.role == Commuter then UserAppScreen(currentUser.value)
    else AdminPanelScreen(currentUser.value)
  }

  /** The commuter app and the admin panel are only ever shown to the signed-in user, and each to its own roles. */
  lemma ScreenMatchesRole(loading: bool, currentUser: Option<User>)
    ensures ScreenFor(loading, currentUser).UserAppScreen? ==>
              currentUser == Some(ScreenFor(loading, currentUser).user) && currentUser.value.role == Commuter
    ensures ScreenFor(loading, currentUser).AdminPanelScreen? ==>
              currentUser == Some(ScreenFor(loading, currentUser).user) && currentUser.value.role != Commuter
    ensures !loading && currentUser.Some? ==> ScreenFor(loading, currentUser) != AuthScreen
  {
  }

  /** The shell's state over a store it shares with later page loads. */
  class AppState {
    const storage: LocalStorage
    var currentUser: Option<User>
    var loading: bool
    /** How many times `handleLogin` has run. */
    ghost var loginCount: nat

    constructor(storage: LocalStorage)
      ensures this.storage == storage && currentUser == None && loading && loginCount == 0
    {
      this.storage := storage;
      currentUser, loading := None, true;
      loginCount := 0;
    }

    /** The mount effect: a stored session is restored, then loading ends. */
    method Mount()
      modifies this`currentUser, this`loading
      ensures !loading
      ensures SessionKey in storage.items ==> currentUser == Some(storage.items[SessionKey])
      ensures SessionKey !in storage.items ==> currentUser == old(currentUser)
    {
      var savedUser := storage.GetItem(SessionKey);
      if savedUser.Some? {
        currentUser := savedUser;
      }
      loading := false;
    }

    /** `handleLogin(user)`. */
    method HandleLogin(user: User)
      modifies this`currentUser, this`loginCount, storage
      ensures currentUser == Some(user) && loading == old(loading)
      ensures storage.items == old(storage.items)[SessionKey := user]
      ensures loginCount == old(loginCount) + 1
    {
      currentUser := Some(user);
      storage.SetItem(SessionKey, user);
      loginCount := loginCount + 1;
    }

    /** `handleLogout()`. */
    method HandleLogout()
      modifies this`currentUser, storage
      ensures currentUser == None && loading == old(loading)
      ensures storage.items == old(storage.items) - {SessionKey}
    {
      currentUser := None;
      storage.RemoveItem(SessionKey);
    }

    function Render(): (s: Screen)
      reads this
      ensures s == ScreenFor(loading, currentUser)
    {
      ScreenFor(loading, currentUser)
    }
  }

  /** A first visit: the spinner, then the sign-in screen. */
  method FirstVisit() returns (before: Screen, after: Screen)
    ensures before == Spinner && after == AuthScreen
  {
    var storage := new LocalStorage(map[]);
    var app := new AppState(storage);
    before := app.Render();
    app.Mount();
    after := app.Render();
  }

  /** Signing in and then loading the page again restores the same user. */
  method LoginThenReload(saved: map<string, User>, user: User) returns (restored: Option<User>)
    ensures restored == Some(user)
  {
    var storage := new LocalStorage(saved);
    var app := new AppState(storage);
    app.Mount();
    app.HandleLogin(user);
    var reloaded := new AppState(storage);
    reloaded.Mount();
    restored := reloaded.currentUser;
  }

  /** Signing in and out leaves no session behind, so the next page load shows the sign-in screen. */
  method LoginThenLogout(saved: map<string, User>, user: User) returns (stored: bool, next: Screen)
    ensures !stored && next == AuthScreen
  {
    var storage := new LocalStorage(saved);
    var app := new AppState(storage);
    app.Mount();
    app.HandleLogin(user);
    app.HandleLogout();
    stored := SessionKey in storage.items;
    var reloaded := new AppState(storage);
    reloaded.Mount();
    next := reloaded.Render();
  }
}
