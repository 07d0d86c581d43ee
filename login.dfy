/**
 * The decision logic of the login screen (app/login.jsx): the token-expiry
 * classifier with its forced logout, the derivation of the gateway address
 * sent with a login, the login action and the startup token check.
 *
 * The key-value store, the navigation route, the toasts shown and the
 * external calls made are the fields of a `LoginScreen`; what the network
 * and the device answer is passed in as parameters.
 */
module Login {
  import opened Options
  import opened JsString

  // ---------------------------------------------------------------------
  // Token expiry classification
  // ---------------------------------------------------------------------

  /** The server messages that mean the bearer token is no longer usable. */
  const ExpiryMessages: set<string> := {"jwt expired", "Token Expired", "Invalid Token", "No Token Provided"}

  /**
   * Whether a server message (absent when the reply has no `message`)
   * reports an expired or invalid token. The comparison is exact: no case
   * folding and no trimming.
   */
  function IsExpiryMessage(msg: Option<string>): (expired: bool)
    ensures expired <==> msg.Some? && msg.value in ExpiryMessages
  {
    msg == Some("jwt expired") || msg == Some("Token Expired")
    || msg == Some("Invalid Token") || msg == Some("No Token Provided")
  }

  // ---------------------------------------------------------------------
  // Gateway address
  // ---------------------------------------------------------------------

  /**
   * The presumed gateway of the device's network: the first three
   * `.`-separated fields of the device address followed by `1`, or None when
   * the address does not have exactly four fields. The fields are not
   * checked to be numbers, and empty fields are kept.
   */
  function GatewayFromIp(deviceIp: string): (gateway: Option<string>)
    ensures gateway.Some? <==> Occurrences(deviceIp, '.') == 3
    ensures gateway.Some? ==> |gateway.value| >= 4 && gateway.value[|gateway.value| - 2..] == ".1"
  {
    var parts := Split(deviceIp, '.');
    if |parts| == 4 then Some(parts[0] + "." + parts[1] + "." + parts[2] + ".1") else None
  }

  /**
   * The gateway derived from the result of reading the device address, where
   * None stands for a read that failed: a failed read also gives None.
   */
  function GatewayIp(deviceIp: Option<string>): (gateway: Option<string>)
    ensures gateway.Some? <==> deviceIp.Some? && |Split(deviceIp.value, '.')| == 4
    ensures gateway.Some? ==> gateway.value != ""
  {
    match deviceIp
    case None => None
    case Some(ip) => GatewayFromIp(ip)
  }

  /** The gateway is the four-field address whose first three fields are the device's and whose last is "1". */
  lemma GatewayKeepsNetworkPart(deviceIp: string)
    requires |Split(deviceIp, '.')| == 4
    ensures GatewayFromIp(deviceIp).Some?
    ensures Split(GatewayFromIp(deviceIp).value, '.') == Split(deviceIp, '.')[..3] + ["1"]
  {
    var parts := Split(deviceIp, '.');
    var fields := parts[..3] + ["1"];
    assert fields == [parts[0], parts[1], parts[2], "1"];
    assert Join(fields, '.') == parts[0] + "." + parts[1] + "." + parts[2] + ".1" by {
      assert fields[1..] == [parts[1], parts[2], "1"];
      assert fields[2..] == fields[1..][1..] == [parts[2], "1"];
      assert fields[3..] == fields[2..][1..] == ["1"];
      assert Join(fields[2..], '.') == parts[2] + ".1";
      assert Join(fields[1..], '.') == parts[1] + "." + parts[2] + ".1";
    }
    assert forall i :: 0 <= i < |fields| ==> '.' !in fields[i] by {
      forall i | 0 <= i < |fields| ensures '.' !in fields[i] {
        if i < 3 { assert fields[i] == parts[i]; }
      }
    }
    SplitJoin(fields, '.');
  }

  /** Deriving the gateway of a gateway gives the same address back. */
  lemma GatewayIdempotent(deviceIp: string)
    requires GatewayFromIp(deviceIp).Some?
    ensures GatewayFromIp(GatewayFromIp(deviceIp).value) == GatewayFromIp(deviceIp)
  {
    var parts := Split(deviceIp, '.');
    GatewayKeepsNetworkPart(deviceIp);
    var again := Split(GatewayFromIp(deviceIp).value, '.');
    assert again == [parts[0], parts[1], parts[2], "1"];
  }

  /**
   * Empty fields are kept: "1..2.3" has four fields and gives "1..2.1".
   * A worked instance of GatewayKeepsNetworkPart.
   */
  lemma GatewayKeepsEmptyFields()
    ensures GatewayFromIp("1..2.3") == Some("1..2.1")
  {
    assert "1..2.3"[1..] == "..2.3" && "..2.3"[1..] == ".2.3" && ".2.3"[1..] == "2.3";
    assert "2.3"[1..] == ".3" && ".3"[1..] == "3" && "3"[1..] == "";
    assert Split("", '.') == [""];
    assert ['3'] + "" == "3";
    assert Split("3", '.') == ["3"];
    assert Split(".3", '.') == ["", "3"];
    assert ['2'] + "" == "2";
    assert Split("2.3", '.') == ["2", "3"];
    assert Split(".2.3", '.') == ["", "2", "3"];
    assert Split("..2.3", '.') == ["", "", "2", "3"];
    assert ['1'] + "" == "1";
    assert Split("1..2.3", '.') == ["1", "", "2", "3"];
    assert "1" + "." + "" + "." + "2" + ".1" == "1..2.1";
  }

  // ---------------------------------------------------------------------
  // Screen state and effects
  // ---------------------------------------------------------------------

  const LoginRoute := "/login"
  const HomeRoute := "/(tabs)/home"

  /** The key under which the bearer token is stored. */
  const TokenKey := "token"

  datatype NoticeKind = SuccessNotice | ErrorNotice

  /** A toast: its kind, its title line and its optional second line. */
  datatype Notice = Notice(kind: NoticeKind, text1: Option<string>, text2: Option<string>)

  const SessionExpired := Notice(ErrorNotice, Some("Session Expired"), Some("Please login again"))
  const MissingFields := Notice(ErrorNotice, Some("Missing Fields"), None)
  const GatewayFailed := Notice(ErrorNotice, Some("Failed to detect network gateway"), None)
  const LoginSuccessful := Notice(SuccessNotice, Some("Login Successful"), None)
  const NetworkError := Notice(ErrorNotice, Some("Network Error"), None)

  /** A call the screen makes outside the key-value store. */
  datatype ExternalCall =
    | ReadDeviceIp
      // POST /api/attendance/loginOnly with body {email, empPassword, ip}
    | PostLogin(email: string, empPassword: string, ip: string)
      // GET /api/attendance/checkToken with the given Authorization header
    | GetCheckToken(authorization: string)

  /** The fields of a JSON reply the screen reads. */
  datatype Body = Body(message: Option<string>, token: Option<string>)

  /**
   * What a request comes to: it threw (no response, a body that is not JSON,
   * or a JSON `null` body whose fields cannot be read), or it was answered
   * with a success flag (`res.ok`) and a body.
   */
  datatype Response = Threw | Answered(ok: bool, body: Body)

  /** `AsyncStorage.getItem("token")` is truthy: present and not the empty string. */
  predicate HasToken(store: map<string, string>)
  {
    TokenKey in store && store[TokenKey] != ""
  }

  /** The login is accepted and carries a token the store can hold. */
  predicate LoginAccepted(response: Response)
  {
    response.Answered? && response.ok && response.body.token.Some?
  }

  class LoginScreen {
    var store: map<string, string>
    var route: string
    var notices: seq<Notice>
    var calls: seq<ExternalCall>

    /** A screen over the persisted store, entered at `entry`, with nothing shown or sent yet. */
    constructor (persisted: map<string, string>, entry: string)
      ensures store == persisted && route == entry && notices == [] && calls == []
    {
      store := persisted;
      route := entry;
      notices := [];
      calls := [];
    }

    /**
     * When `msg` is an expiry message: wipe the whole store, go to the login
     * route, show "Session Expired" and answer true. Otherwise change nothing
     * and answer false.
     */
    method HandleTokenExpiry(msg: Option<string>) returns (expired: bool)
      modifies this`store, this`route, this`notices
      ensures expired <==> msg.Some? && msg.value in ExpiryMessages
      ensures expired ==> store == map[] && route == LoginRoute && notices == old(notices) + [SessionExpired]
      ensures !expired ==> store == old(store) && route == old(route) && notices == old(notices)
    {
      expired := IsExpiryMessage(msg);
      if expired {
        store := map[];
        route := LoginRoute;
        notices := notices + [SessionExpired];
      }
    }

    /**
     * The check run when the screen mounts. Without a stored token nothing
     * happens. Otherwise the token is sent to the check endpoint; an expiry
     * message forces the logout above (before `ok` is looked at), an ok reply
     * goes to the home route, and a request that throws removes only the
     * token from the store.
     */
    method CheckToken(response: Response)
      modifies this
      ensures !HasToken(old(store)) ==>
        store == old(store) && route == old(route) && notices == old(notices) && calls == old(calls)
      ensures HasToken(old(store)) ==>
        calls == old(calls) + [GetCheckToken("Bearer " + old(store)[TokenKey])]
      ensures HasToken(old(store)) && response.Threw? ==>
        store == old(store) - {TokenKey} && route == old(route) && notices == old(notices)
      ensures HasToken(old(store)) && response.Answered? && IsExpiryMessage(response.body.message) ==>
        store == map[] && route == LoginRoute && notices == old(notices) + [SessionExpired]
      ensures HasToken(old(store)) && response.Answered? && !IsExpiryMessage(response.body.message) ==>
        store == old(store) && notices == old(notices) &&
        route == (if response.ok then HomeRoute else old(route))
    {
      if !(TokenKey in store && store[TokenKey] != "") {
        return;
      }
      var token := store[TokenKey];
      calls := calls + [GetCheckToken("Bearer " + token)];
      match response {
        case Threw =>
          store := store - {TokenKey};
        case Answered(ok, body) =>
          var expired := HandleTokenExpiry(body.message);
          if expired {
            return;
          }
          if ok {
            route := HomeRoute;
          }
      }
    }

    /**
     * The login action for the two text fields' current values. A blank
     * field stops it before anything is read or sent; so does a gateway that
     * cannot be derived, after the device address was read. Otherwise the
     * credentials and the gateway are posted: an accepted login stores the
     * token and goes home, a rejection shows the server's message, and a
     * request that throws shows "Network Error".
     */
    method HandleLogin(email: string, password: string, deviceIp: Option<string>, response: Response)
      modifies this
      ensures email == "" || password == "" ==>
        store == old(store) && route == old(route) && calls == old(calls) &&
        notices == old(notices) + [MissingFields]
      ensures email != "" && password != "" && GatewayIp(deviceIp).None? ==>
        store == old(store) && route == old(route) && calls == old(calls) + [ReadDeviceIp] &&
        notices == old(notices) + [GatewayFailed]
      ensures email != "" && password != "" && GatewayIp(deviceIp).Some? ==>
        calls == old(calls) + [ReadDeviceIp, PostLogin(email, password, GatewayIp(deviceIp).value)]
      ensures email != "" && password != "" && GatewayIp(deviceIp).Some? && LoginAccepted(response) ==>
        store == old(store)[TokenKey := response.body.token.value] && route == HomeRoute &&
        notices == old(notices) + [LoginSuccessful]
      ensures email != "" && password != "" && GatewayIp(deviceIp).Some? && response.Answered? && !response.ok ==>
        store == old(store) && route == old(route) &&
        notices == old(notices) + [Notice(ErrorNotice, response.body.message, None)]
      ensures email != "" && password != "" && GatewayIp(deviceIp).Some? &&
              (response.Threw? || (response.ok && response.body.token.None?)) ==>
        store == old(store) && route == old(route) && notices == old(notices) + [NetworkError]
    {
      if email == "" || password == "" {
        notices := notices + [MissingFields];
        return;
      }
      calls := calls + [ReadDeviceIp];
      var gateway := GatewayIp(deviceIp);
      if gateway.None? || gateway.value == "" {
        notices := notices + [GatewayFailed];
        return;
      }
      calls := calls + [PostLogin(email, password, gateway.value)];
      match response {
        case Threw =>
          notices := notices + [NetworkError];
        case Answered(ok, body) =>
          if ok {
            // Storing an absent token rejects, and the rejection lands in the catch.
            if body.token.None? {
              notices := notices + [NetworkError];
              return;
            }
            store := store[TokenKey := body.token.value];
            notices := notices + [LoginSuccessful];
            route := HomeRoute;
          } else {
            notices := notices + [Notice(ErrorNotice, body.message, None)];
          }
      }
    }
  }

  // ---------------------------------------------------------------------
  // Two actions in sequence
  // ---------------------------------------------------------------------

  /**
   * An accepted login followed by a restart, which reopens the login route
   * over the same store. The startup check presents the token the login
   * stored, unless that token is the empty string, which the check treats as
   * no token at all. An expiry reply wipes the store, an ok reply goes to the
   * home route, and a check that throws removes the token again.
   */
  method LoginThenRestart(persisted: map<string, string>, entry: string, email: string, password: string,
                          deviceIp: Option<string>, token: string, check: Response)
    returns (sent: seq<ExternalCall>, route: string, kept: map<string, string>)
    requires email != "" && password != "" && GatewayIp(deviceIp).Some?
    ensures token == "" ==> sent == [] && route == LoginRoute && kept == persisted[TokenKey := ""]
    ensures token != "" ==> sent == [GetCheckToken("Bearer " + token)]
    ensures token != "" && check.Threw? ==> route == LoginRoute && kept == persisted - {TokenKey}
    ensures token != "" && check.Answered? && IsExpiryMessage(check.body.message) ==>
      route == LoginRoute && kept == map[]
    ensures token != "" && check.Answered? && !IsExpiryMessage(check.body.message) ==>
      kept == persisted[TokenKey := token] && route == (if check.ok then HomeRoute else LoginRoute)
  {
    var first := new LoginScreen(persisted, entry);
    first.HandleLogin(email, password, deviceIp, Answered(true, Body(None, Some(token))));
    var second := new LoginScreen(first.store, LoginRoute);
    second.CheckToken(check);
    sent, route, kept := second.calls, second.route, second.store;
  }

  /**
   * A forced logout followed by a restart over the same store: the wiped
   * store holds no token, so the startup check sends nothing and stays on
   * the login route.
   */
  method RestartAfterExpiry(persisted: map<string, string>, entry: string, msg: string, check: Response)
    returns (sent: seq<ExternalCall>, route: string)
    requires msg in ExpiryMessages
    ensures sent == [] && route == LoginRoute
  {
    var first := new LoginScreen(persisted, entry);
    var expired := first.HandleTokenExpiry(Some(msg));
    var second := new LoginScreen(first.store, LoginRoute);
    second.CheckToken(check);
    sent, route := second.calls, second.route;
  }
}
