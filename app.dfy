/** The application shell: the session predicate the protected route
    reads, the connect-if-needed effect, the disconnect on unmount, and
    the route table. */
module App {

  import opened Optional
  import opened Json
  import Storage
  import WebSocket

  /** `getItem('admin_authenticated') === 'true' && getItem('admin_token')`:
      the flag is exactly `true` and a non-empty token is stored. */
  predicate IsAuthenticated(items: map<string, string>) {
    Storage.AuthFlagKey in items && items[Storage.AuthFlagKey] == "true" &&
    Storage.TokenKey in items && items[Storage.TokenKey] != ""
  }

  /** Either key alone does not make a session. */
  lemma BothKeysNeeded(items: map<string, string>)
    ensures Storage.AuthFlagKey !in items ==> !IsAuthenticated(items)
    ensures Storage.TokenKey !in items ==> !IsAuthenticated(items)
    ensures !IsAuthenticated(Storage.ClearSession(items))
    ensures !IsAuthenticated(items[Storage.TokenKey := ""])
  {
  }

  /** What the protected route shows. */
  datatype Screen = LoginScreen | Children

  class ProtectedRoute {
    var isAuthenticated: bool

    /** The lazy initial state, read from storage on first render. */
    constructor (storage: Storage.LocalStorage)
      ensures isAuthenticated == IsAuthenticated(storage.items)
    {
      isAuthenticated := Authenticated(storage);
    }

    /** The mount effect: re-reads the session, and opens a socket with
        the stored token when there is a session and no connected
        socket. */
    method Mount(storage: Storage.LocalStorage, sockets: WebSocket.SocketModule)
      modifies this, sockets
      ensures isAuthenticated == IsAuthenticated(storage.items)
      ensures if IsAuthenticated(storage.items) && !old(sockets.IsConnected())
        then fresh(sockets.socket) && sockets.socket.token == Str(storage.items[Storage.TokenKey])
          && sockets.socket.listeners == WebSocket.Builtins
        else sockets.socket == old(sockets.socket)
    {
      var authStatus := Authenticated(storage);
      isAuthenticated := authStatus;
      if authStatus {
        var token := storage.GetItem(Storage.TokenKey);
        if token.Some? && token.value != "" && !sockets.IsConnected() {
          var _ := sockets.Connect(Str(token.value));
        }
      }
    }

    /** The `onLogin` callback the route hands to its login form. */
    method OnLogin()
      modifies this
      ensures isAuthenticated
    {
      isAuthenticated := true;
    }

    /** The children only with a session; the login form otherwise. */
    function Render(): (s: Screen)
      reads this
      ensures s == Children <==> isAuthenticated
    {
      if isAuthenticated then Children else LoginScreen
    }
  }

  /** The session predicate read through the storage object. */
  function Authenticated(storage: Storage.LocalStorage): (r: bool)
    reads storage
    ensures r == IsAuthenticated(storage.items)
  {
    var flag := storage.GetItem(Storage.AuthFlagKey);
    var token := storage.GetItem(Storage.TokenKey);
    flag == Some("true") && token.Some? && token.value != ""
  }

  /** `App`'s unmount cleanup. */
  method Unmount(sockets: WebSocket.SocketModule)
    modifies sockets, sockets.socket
    ensures sockets.socket == null && !sockets.IsConnected()
  {
    sockets.Disconnect();
  }

  /** The pages inside the layout, in the order they are declared. */
  const PagePaths: seq<string> := ["/dashboard", "/users", "/verification", "/business", "/posts",
                                   "/communities", "/events", "/locations", "/analytics",
                                   "/advertising", "/reports", "/settings"]

  /** Where a path leads. */
  datatype Destination = LoginPage | Redirect(to: string) | Page(path: string) | EmptyLayout

  /** The path without its trailing slashes. */
  function TrimSlashes(path: string): (r: string)
    ensures |r| <= |path| && r == path[..|r|]
    ensures r == [] || r[|r| - 1] != '/'
    ensures forall i :: |r| <= i < |path| ==> path[i] == '/'
  {
    if path != [] && path[|path| - 1] == '/' then TrimSlashes(path[..|path| - 1]) else path
  }

  /** The form the router compares: routes match whatever the case of the
      letters and however many slashes trail the path, and `/` is what is
      left of a path made of slashes only. */
  function Canonical(path: string): (c: string)
    ensures c != [] && (c == "/" || c[|c| - 1] != '/')
  {
    var trimmed := Lower(TrimSlashes(path));
    if trimmed == [] then "/" else trimmed
  }

  /** Canonical paths are fixed points, so resolving a path and resolving
      its canonical form agree. */
  lemma {:induction false} CanonicalIdempotent(path: string)
    ensures Canonical(Canonical(path)) == Canonical(path)
  {
    var t := Lower(TrimSlashes(path));
    if t != [] {
      assert t[|t| - 1] != '/';
      assert TrimSlashes(t) == t;
      LowerIdempotent(TrimSlashes(path));
    }
  }

  /** A path in lower case with no trailing slash is already canonical. */
  lemma {:induction false} CanonicalOfPlain(path: string)
    requires path != [] && path[|path| - 1] != '/'
    requires forall i :: 0 <= i < |path| ==> !('A' <= path[i] <= 'Z')
    ensures Canonical(path) == path
  {
    assert TrimSlashes(path) == path;
    assert Lower(path) == path;
  }

  /** No page path is declared twice. */
  lemma PagePathsDistinct()
    ensures forall i, j :: 0 <= i < j < |PagePaths| ==> PagePaths[i] != PagePaths[j]
  {
  }

  /** Every declared page path is written in canonical form. */
  lemma PagePathsCanonical()
    ensures forall i :: 0 <= i < |PagePaths| ==> Canonical(PagePaths[i]) == PagePaths[i]
  {
    forall i | 0 <= i < |PagePaths|
      ensures Canonical(PagePaths[i]) == PagePaths[i]
    {
      CanonicalOfPlain(PagePaths[i]);
    }
  }

  /** The outer `/login` route, then the protected catch-all: the login
      form without a session, `/` redirected to the dashboard, a declared
      page, or the layout with nothing in it. Paths are compared in their
      canonical form. */
  function Resolve(path: string, authenticated: bool): (d: Destination)
    ensures d.Page? ==> authenticated && d.path == Canonical(path) && d.path in PagePaths
    ensures d.Redirect? ==> authenticated && Canonical(path) == "/"
    ensures Canonical(path) == "/login" || !authenticated ==> d == LoginPage
    ensures d == EmptyLayout <==>
      authenticated && Canonical(path) !in PagePaths && Canonical(path) != "/" && Canonical(path) != "/login"
  {
    var p := Canonical(path);
    if p == "/login" then LoginPage
    else if !authenticated then LoginPage
    else if p == "/" then Redirect("/dashboard")
    else if p in PagePaths then Page(p)
    else EmptyLayout
  }

  /** Signed in, every declared page path shows its page. */
  lemma PagesResolve()
    ensures forall i :: 0 <= i < |PagePaths| ==> Resolve(PagePaths[i], true) == Page(PagePaths[i])
  {
    PagePathsCanonical();
    forall i | 0 <= i < |PagePaths|
      ensures Resolve(PagePaths[i], true) == Page(PagePaths[i])
    {
      assert PagePaths[i] in PagePaths;
    }
  }

  /** A path leads where its canonical form leads. */
  lemma ResolveCanonical(path: string, authenticated: bool)
    ensures Resolve(path, authenticated) == Resolve(Canonical(path), authenticated)
  {
    CanonicalIdempotent(path);
  }

  /** `/` redirects to a declared page, and the case of the letters and a
      trailing slash do not change which page a path shows. */
  lemma RootRedirectsToDashboard()
    ensures Resolve("/", true) == Redirect("/dashboard")
    ensures Resolve("/dashboard", true) == Page("/dashboard")
    ensures Resolve("/Users/", true) == Page("/users")
  {
    CanonicalOfPlain("/dashboard");
    CanonicalOfPlain("/users");
    assert TrimSlashes("/Users/") == "/Users";
    assert Lower("/Users") == "/users";
  }
}
