/** The top-level screen navigation of the application: which of the three
    screens is shown, and the session (API key, chosen server) the screens
    share. */
module Navigation {
  import opened Js

  datatype AppState = Login | ServerSelect | VersionSelect

  /** The user's session; `serverId` and `serverName` stay undefined until a
      server has been chosen. */
  datatype Session = Session(apiKey: string, serverId: Option<string>, serverName: Option<string>)

  /** The screen the application renders, with the properties it passes on. */
  datatype Screen =
    | LoginScreen
    | ServerSelectScreen(apiKey: string)
    | VersionSelectScreen(serverId: string, serverName: string, apiKey: string)

  const UnknownServer := "Unknown Server"

  /** The render selection: the login screen whenever the state is `login` or
      there is no session; the server list in state `server-select`; the
      version screen in state `version-select` when a (non-empty) server id is
      present; and the login screen in every other case. */
  function Render(state: AppState, session: Option<Session>): (screen: Screen)
    ensures screen.LoginScreen? <==>
              state == Login || session.None? || (state == VersionSelect && !Truthy(session.value.serverId))
    ensures screen.ServerSelectScreen? <==> state == ServerSelect && session.Some?
    ensures screen.VersionSelectScreen? <==>
              state == VersionSelect && session.Some? && Truthy(session.value.serverId)
    ensures !screen.LoginScreen? ==> screen.apiKey == session.value.apiKey
    ensures screen.VersionSelectScreen? ==>
              screen.serverId == session.value.serverId.value &&
              screen.serverName == (if Truthy(session.value.serverName) then session.value.serverName.value else UnknownServer)
  {
    if state == Login || session.None? then LoginScreen
    else if state == ServerSelect then ServerSelectScreen(session.value.apiKey)
    else if state == VersionSelect && Truthy(session.value.serverId) then
      VersionSelectScreen(session.value.serverId.value,
                          Or(session.value.serverName, Some(UnknownServer)).value,
                          session.value.apiKey)
    else
      assert state.VersionSelect?;
      LoginScreen
  }

  /** The `App` component's state and its four handlers. */
  class App {
    var appState: AppState
    var session: Option<Session>

    constructor ()
      ensures appState == Login && session == None
    {
      appState := Login;
      session := None;
    }

    /** The screen the current state renders. */
    function Shown(): Screen
      reads this
    {
      Render(appState, session)
    }

    /** A successful login starts a fresh session holding only the key. */
    method HandleLogin(apiKey: string)
      modifies this
      ensures session == Some(Session(apiKey, None, None))
      ensures appState == ServerSelect
      ensures Shown() == ServerSelectScreen(apiKey)
    {
      session := Some(Session(apiKey, None, None));
      appState := ServerSelect;
    }

    /** Choosing a server records it in the existing session (keeping the
        key); without a session there is nothing to record into. The server
        list passes on the fields it extracted, which may be undefined. */
    method HandleServerSelect(serverId: Option<string>, serverName: Option<string>)
      modifies this
      ensures old(session).None? ==> session == None
      ensures old(session).Some? ==>
                session == Some(Session(old(session).value.apiKey, serverId, serverName))
      ensures appState == VersionSelect
      ensures old(session).Some? && Truthy(serverId) ==>
                Shown() == VersionSelectScreen(serverId.value, if Truthy(serverName) then serverName.value else UnknownServer,
                                                old(session).value.apiKey)
      ensures old(session).None? || !Truthy(serverId) ==> Shown() == LoginScreen
    {
      session := if session.Some? then Some(session.value.(serverId := serverId, serverName := serverName))
                 else None;
      appState := VersionSelect;
    }

    /** Logging out drops the session and returns to the login screen. */
    method HandleLogout()
      modifies this
      ensures session == None && appState == Login
      ensures Shown() == LoginScreen
    {
      session := None;
      appState := Login;
    }

    /** Going back to the server list keeps the whole session. */
    method HandleBackToServerSelect()
      modifies this
      ensures session == old(session)
      ensures appState == ServerSelect
      ensures session.Some? ==> Shown() == ServerSelectScreen(session.value.apiKey)
      ensures session.None? ==> Shown() == LoginScreen
    {
      appState := ServerSelect;
    }
  }

  /** One pass through the application: log in, pick a server, go back to the
      server list, pick it again, log out. Returns the screen shown after each
      step. */
  method NavigationScenario(apiKey: string, serverId: Option<string>, serverName: Option<string>) returns (screens: seq<Screen>)
    ensures var versions := if !Truthy(serverId) then LoginScreen
                            else VersionSelectScreen(serverId.value, if Truthy(serverName) then serverName.value else UnknownServer, apiKey);
            screens == [LoginScreen, ServerSelectScreen(apiKey), versions, ServerSelectScreen(apiKey), versions, LoginScreen]
  {
    var app := new App();
    screens := [app.Shown()];
    app.HandleLogin(apiKey);
    screens := screens + [app.Shown()];
    app.HandleServerSelect(serverId, serverName);
    screens := screens + [app.Shown()];
    app.HandleBackToServerSelect();
    screens := screens + [app.Shown()];
    app.HandleServerSelect(serverId, serverName);
    screens := screens + [app.Shown()];
    app.HandleLogout();
    screens := screens + [app.Shown()];
  }
}
