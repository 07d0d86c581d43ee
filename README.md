# Login screen decision logic of the attendance app

This project models the non-visual logic of the attendance app's login screen, `app/login.jsx`. It has four parts:

- **Token-expiry classifier.** It recognises the four server messages that mean the bearer token is no longer usable.
- **Forced logout.** On such a message it wipes the whole key-value store, goes to `/login` and shows "Session Expired".
- **Gateway derivation.** It turns the device's IP address into a presumed gateway address `p0.p1.p2.1`, which is sent with the login request.
- **Two actions.** The login action (`handleLogin`) and the startup token check (`checkToken`, run when the screen mounts).

The model has three files:

- `options.dfy`: an `Option` type that stands for JavaScript's `null`/`undefined` beside a present value.
- `js_string.dfy`: JavaScript's `split` with a one-character separator, and `join`. Empty fields are kept: `"1..2.3".split(".")` is `["1", "", "2", "3"]`. The file also proves that split and join are inverses.
- `login.dfy`: the expiry predicate, the gateway derivation and a `LoginScreen` class. The class fields are:
  - `store`: AsyncStorage, as a `map<string, string>`;
  - `route`: the current navigation route;
  - `notices`: the toasts shown, in order;
  - `calls`: the external calls made, in order. These are the device-IP read and the two fetches, with their request data.

Answers from outside become method parameters:
- the device address read, where `None` means the read failed;
- the network response, either `Threw` or `Answered(ok, body)`.

Each `LoginScreen` method states its full effect on each branch, and also what it leaves unchanged.

Behaviour of the code worth noting:
- A gateway that cannot be derived stops the login with "Failed to detect network gateway" (app/login.jsx:93-97).
- With no stored token, `checkToken` returns and changes nothing: no request, no navigation (app/login.jsx:66).
- The `.`-separated fields of the device address are only counted, never checked to be numeric or non-empty.

Modelling decisions:
- `!token` in `checkToken` is false for a missing key and also for the empty string. So an empty stored token counts as no token (`HasToken`).
- `!gatewayIp` in `handleLogin` is true only for `null`. The model proves a derived gateway is never the empty string (`GatewayIp`).
- A JSON body of `null` makes `data.message` / `data.token` throw. That throw is caught by the same `catch` as a failed request, so it is represented by `Threw`.
- An ok login reply without a `token` is modelled as the `catch` branch ("Network Error", nothing stored). The reason is that AsyncStorage's `setItem` rejects a `null`/`undefined` value, and that call sits inside the `try`.

## Model

| member | source | states |
|---|---|---|
| `JsString.Split` | app/login.jsx:45 | A string with k separators splits into exactly k + 1 fields, and no field contains the separator. Empty fields are kept. |
| `JsString.JoinSplit` | app/login.jsx:45 | Joining the fields of a split with the separator gives back the original string. |
| `JsString.SplitJoin` | app/login.jsx:45-47 | Splitting the join of a non-empty list of separator-free fields gives back exactly those fields. |
| `Login.IsExpiryMessage` | app/login.jsx:19-24 | True exactly when the message is present and equals one of the four strings "jwt expired", "Token Expired", "Invalid Token", "No Token Provided". An absent message is not an expiry message. |
| `Login.GatewayFromIp` | app/login.jsx:45-51 | A gateway exists exactly when the address contains exactly three dots (four fields). When it exists it is non-empty and ends in ".1". |
| `Login.GatewayIp` | app/login.jsx:40-56 | There is a gateway exactly when the address read succeeded and splits into four fields. Otherwise, including a failed read, the result is null. A gateway is never the empty string, so the `!gatewayIp` guard is a null check. |
| `Login.GatewayKeepsNetworkPart` | app/login.jsx:45-49 | For a four-field address, the gateway splits into the address's first three fields, unchanged, followed by "1". |
| `Login.GatewayIdempotent` | app/login.jsx:45-49 | Deriving the gateway from a derived gateway returns the same address. |
| `Login.GatewayKeepsEmptyFields` | app/login.jsx:45-47 | Empty fields are not rejected: "1..2.3" yields "1..2.1". |
| `Login.LoginScreen.HandleTokenExpiry` | app/login.jsx:18-37 | On an expiry message, the store is empty (every key removed), the route is `/login`, one "Session Expired" / "Please login again" error notice is appended, and the result is true. On any other message, the result is false and store, route and notices are unchanged. No external call is made on either branch. |
| `Login.LoginScreen.CheckToken` | app/login.jsx:64-82 | With no stored token, nothing changes and no request is sent. "No token" follows line 66's `!token`: the key is missing or holds the empty string (`HasToken`). Otherwise exactly one check request is sent, bearing "Bearer " + token. If it throws, only the `token` key is removed. If the reply's message is an expiry message, the full wipe happens and the route is `/login`, even when the reply was ok. Any other ok reply sets the route to `/(tabs)/home`. A non-ok reply changes nothing else. |
| `Login.LoginScreen.HandleLogin` | app/login.jsx:87-122 | The branches, in order: (1) An empty email or password appends "Missing Fields", with no IP read, no request and no change to store or route. (2) An underivable gateway appends "Failed to detect network gateway" after the IP read, with no request and no change to store or route. (3) Otherwise one login request is sent with the email, the password and the gateway. If it is accepted, `token` maps to the returned token, all other keys are unchanged, "Login Successful" is appended and the route becomes `/(tabs)/home`. If it is rejected, the server's message is shown. If it throws, "Network Error" is shown. In both failure cases store and route are unchanged. |
| `Login.LoginThenRestart` | app/login.jsx:65-81 | An accepted login, then a restart on the login route. If the stored token is the empty string, the startup check sends nothing and stays on `/login`, with `token` mapped to "". Otherwise it sends one request, bearing the token that login stored. An expiry reply wipes the store and stays on `/login`. Another reply keeps the stored token and goes home when ok, or stays on `/login` when not. A check that throws stays on `/login`; the store then holds no `token` key, and every other key is as it was before the login. |
| `Login.RestartAfterExpiry` | app/login.jsx:65-66 | After a forced logout, the next startup check sends nothing and the screen stays on `/login`. |

## Left out

- The JSX rendering, the password-visibility toggle and the styles (app/login.jsx:61, 124-207) are presentation only.
- `app/splash.jsx` is left out: a timed redirect to `/login` with an animation has no decision logic.
- `fetch`, `res.json()`, `Network.getIpAddressAsync`, toast rendering and `router.replace` are calls into libraries. The model takes their results as parameters, and records their effects in `calls`, `notices` and `route`.
- `console.log` output is not modelled.
- Asynchronous interleaving is not modelled. Each action runs as one sequential method, with no other action between its awaits. A failure of AsyncStorage itself (`clear`, `removeItem` or `getItem` rejecting) is not modelled either.
- A `message` or `token` field that is present but is not a string (a number, say) has no representation. The model's body fields are strings or absent.
- Check-in, check-out, the 12-hour time formatting and the busy flag live in `app/(tabs)/home.jsx`. That file is not part of this model.
