/** The login form's submit handler: the API login, the demo fallback
    when there is no server answer, and the storage writes of each path.
    The outcome is the one that reaches the handler, after the response
    interceptor; the clock reading is a parameter. */
module Login {

  import opened Optional
  import opened Json
  import Storage
  import Api
  import WebSocket
  import App

  const DemoUser := "admin"
  const DemoPassword := "admin123"
  const DemoHint := "Invalid credentials. Use admin/admin123 for demo mode"

  /** What a submission comes to. */
  datatype Decision =
    | ApiLogin(token: Json)
    | DemoLogin(demoToken: string)
    | Refused(message: string)

  /** The response carries a truthy `data.token`. */
  predicate HasToken(outcome: Api.Outcome) {
    outcome.Resolved? && Truthy(outcome.data) && Truthy(Get(outcome.data, "token"))
  }

  /** The caught error has no response, or one with status 0: the
      missing-token `Error` thrown on a resolved call counts too. */
  predicate NoServerAnswer(outcome: Api.Outcome) {
    outcome.Resolved? || outcome.response.None? || outcome.response.value.status == 0
  }

  /** The token the demo branch stores. */
  function DemoToken(now: nat): (t: string)
    ensures |t| > |"demo_token_"| && t[..|"demo_token_"|] == "demo_token_"
  {
    "demo_token_" + NatToString(now)
  }

  function Decide(username: string, password: string, outcome: Api.Outcome, now: nat): (d: Decision)
    ensures d.ApiLogin? <==> HasToken(outcome)
    ensures d.DemoLogin? <==>
      !HasToken(outcome) && NoServerAnswer(outcome) && username == DemoUser && password == DemoPassword
    ensures d.ApiLogin? ==> d.token == Get(outcome.data, "token")
    ensures d.DemoLogin? ==> d.demoToken == DemoToken(now)
  {
    if HasToken(outcome) then ApiLogin(Get(outcome.data, "token"))
    else if NoServerAnswer(outcome) then
      if username == DemoUser && password == DemoPassword then DemoLogin(DemoToken(now))
      else Refused(DemoHint)
    else
      Refused(JsString(Or(Get(outcome.response.value.data, "message"), Str("Invalid credentials"))))
  }

  /** The storage a decision leaves: a login writes both keys, a refusal
      writes nothing. */
  function Stored(items: map<string, string>, d: Decision): (r: map<string, string>)
    ensures d.Refused? ==> r == items
    ensures !d.Refused? ==> r.Keys == items.Keys + {Storage.TokenKey, Storage.AuthFlagKey}
    ensures d.ApiLogin? ==> Storage.TokenKey in r && r[Storage.TokenKey] == JsString(d.token)
    ensures d.DemoLogin? ==> Storage.TokenKey in r && r[Storage.TokenKey] == d.demoToken
    ensures !d.Refused? ==> Storage.AuthFlagKey in r && r[Storage.AuthFlagKey] == "true"
    ensures forall k :: k in items && k != Storage.TokenKey && k != Storage.AuthFlagKey ==> k in r && r[k] == items[k]
  {
    match d
    case ApiLogin(token) => items[Storage.TokenKey := JsString(token)][Storage.AuthFlagKey := "true"]
    case DemoLogin(token) => items[Storage.AuthFlagKey := "true"][Storage.TokenKey := token]
    case Refused(_) => items
  }

  /** A submission never removes a key, and a successful one leaves a
      session the protected route accepts, unless the server's token is
      an array, which `String` turns into the empty string. */
  lemma LoginOutcomes(items: map<string, string>, username: string, password: string, outcome: Api.Outcome, now: nat)
    ensures var d := Decide(username, password, outcome, now);
      && items.Keys <= Stored(items, d).Keys
      && (d.DemoLogin? || (d.ApiLogin? && !d.token.Arr?) ==> App.IsAuthenticated(Stored(items, d)))
      && (d == ApiLogin(Arr([])) ==> !App.IsAuthenticated(Stored(items, d)))
  {
    var d := Decide(username, password, outcome, now);
    if d.ApiLogin? && !d.token.Arr? {
      TruthyStringNonEmpty(d.token);
    }
  }

  /** A server that answers with an error status other than 0 never lets
      the demo credentials in. */
  lemma ServerErrorRefusesDemo(status: int, data: Json, now: nat)
    requires status != 0
    ensures Decide(DemoUser, DemoPassword, Api.Rejected(Some(Api.HttpError(status, data))), now).Refused?
  {
  }

  class LoginForm {
    var loading: bool

    constructor ()
      ensures !loading
    {
      loading := false;
    }

    /** `handleSubmit`. */
    method Submit(username: string, password: string, outcome: Api.Outcome, now: nat,
                  storage: Storage.LocalStorage, sockets: WebSocket.SocketModule) returns (d: Decision)
      modifies this, storage, sockets
      ensures d == Decide(username, password, outcome, now)
      ensures storage.items == Stored(old(storage.items), d)
      ensures d.ApiLogin? && !old(sockets.IsConnected()) ==> fresh(sockets.socket) && sockets.socket.token == d.token
      ensures d.ApiLogin? && old(sockets.IsConnected()) ==> sockets.socket == old(sockets.socket)
      ensures !d.ApiLogin? ==> sockets.socket == old(sockets.socket)
      ensures !loading
    {
      loading := true;
      if HasToken(outcome) {
        var token := Get(outcome.data, "token");
        storage.SetItem(Storage.TokenKey, JsString(token));
        storage.SetItem(Storage.AuthFlagKey, "true");
        var _ := sockets.Connect(token);
        d := ApiLogin(token);
      } else if NoServerAnswer(outcome) {
        if username == DemoUser && password == DemoPassword {
          storage.SetItem(Storage.AuthFlagKey, "true");
          storage.SetItem(Storage.TokenKey, DemoToken(now));
          d := DemoLogin(DemoToken(now));
        } else {
          d := Refused(DemoHint);
        }
      } else {
        d := Refused(JsString(Or(Get(outcome.response.value.data, "message"), Str("Invalid credentials"))));
      }
      loading := false;
    }
  }
}
