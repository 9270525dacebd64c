/**
  The dashboard page's controller: the session (restored from and persisted to
  local storage), the login and logout exchanges, the demo TOTP refresh, and
  the two authenticated market-data fetches with their loading/error/success
  flags.

  Every `fetch` is I/O: a handler returns the request it sends and takes the
  outcome of that request as a parameter. A handler that awaits in the middle
  is split in two steps, `Begin...` (the state updates before the await) and
  `Finish...` (those after it); the handler itself runs the two in sequence.
*/
module Dashboard {
  import opened Wrappers
  import opened MarketData

  const ApiBaseUrl := "http://localhost:8001"

  /** Keys of the two local-storage entries that persist a session. */
  const AuthTokenKey := "auth_token"
  const UsernameKey := "username"

  /** The expiry a restored session is given: the real one is not persisted. */
  const RestoredExpiresIn := 86400

  const LoginSuccessMessage := "Login successful!"
  const LoginFailedMessage := "Login failed"
  const LoginNetworkMessage := "Network error. Please check if the backend is running."
  const LogoutSuccessMessage := "Logged out successfully"
  const StockFailedMessage := "Failed to fetch stock data"
  const StockNetworkMessage := "Network error while fetching stock data"
  const WatchlistFailedMessage := "Failed to fetch watchlist data"
  const WatchlistNetworkMessage := "Network error while fetching watchlist data"

  datatype User = User(username: string, token: string, expiresIn: int)

  // ---------------------------------------------------------------------------
  // Requests

  datatype HttpMethod = Get | Post

  datatype Header = Header(name: string, value: string)

  /**
    The JSON body of a login request (its serialisation is not modelled). A
    `totp` of `None` is an `undefined` field, which `JSON.stringify` leaves out
    of the body.
  */
  datatype Credentials = Credentials(username: string, pin: string, totp: Option<string>)

  datatype Request = Request(verb: HttpMethod, url: string, headers: seq<Header>, body: Option<Credentials>)

  const TotpRequest := Request(Get, ApiBaseUrl + "/api/auth/current-totp", [], None)

  const LogoutRequest := Request(Post, ApiBaseUrl + "/api/auth/logout", [], None)

  function LoginRequest(credentials: Credentials): Request {
    Request(Post, ApiBaseUrl + "/api/auth/login", [Header("Content-Type", "application/json")], Some(credentials))
  }

  const BearerPrefix := "Bearer "

  /** The Authorization header value: the session token after the "Bearer " scheme. */
  function Bearer(token: string): (v: string)
    ensures |v| == |BearerPrefix| + |token|
    ensures v[..|BearerPrefix|] == BearerPrefix && v[|BearerPrefix|..] == token
  {
    BearerPrefix + token
  }

  /** A GET carrying the session token and nothing else. */
  function AuthorizedGet(url: string, token: string): Request {
    Request(Get, url, [Header("Authorization", Bearer(token))], None)
  }

  const StockUrlPrefix := ApiBaseUrl + "/api/stocks/ltp/"
  const StockUrlSuffix := "?exchange=NSE"

  /** The single-symbol URL: the symbol is placed verbatim in the path, exchange fixed to NSE. */
  function StockUrl(symbol: string): (url: string)
    ensures |url| == |StockUrlPrefix| + |symbol| + |StockUrlSuffix|
    ensures url[..|StockUrlPrefix|] == StockUrlPrefix
    ensures url[|StockUrlPrefix|..|StockUrlPrefix| + |symbol|] == symbol
    ensures url[|StockUrlPrefix| + |symbol|..] == StockUrlSuffix
  {
    StockUrlPrefix + symbol + StockUrlSuffix
  }

  const WatchlistUrlPrefix := ApiBaseUrl + "/api/stocks/watchlist?symbols="
  const WatchlistUrlSuffix := "&exchange=NSE"

  /** The watchlist URL: the symbols text is placed verbatim in the query, exchange fixed to NSE. */
  function WatchlistUrl(symbols: string): (url: string)
    ensures |url| == |WatchlistUrlPrefix| + |symbols| + |WatchlistUrlSuffix|
    ensures url[..|WatchlistUrlPrefix|] == WatchlistUrlPrefix
    ensures url[|WatchlistUrlPrefix|..|WatchlistUrlPrefix| + |symbols|] == symbols
    ensures url[|WatchlistUrlPrefix| + |symbols|..] == WatchlistUrlSuffix
  {
    WatchlistUrlPrefix + symbols + WatchlistUrlSuffix
  }

  // ---------------------------------------------------------------------------
  // Outcomes of the requests. A body that does not parse, or a missing field
  // that the code dereferences, throws inside the `try` like a transport
  // failure does, so it is folded into the `...Thrown` variant.

  datatype LoginOutcome =
    | LoginOk(accessToken: string, expiresIn: int, userInfoUsername: string)
    | LoginRejected(detail: Option<string>)
    | LoginThrown

  datatype FetchOutcome<T> = FetchOk(payload: T) | FetchNotOk | FetchThrown

  /** The watchlist response body: its `watchlist` member may be missing. */
  datatype WatchlistBody = WatchlistBody(watchlist: Option<Watchlist>)

  /** The TOTP response's status is never looked at; only its body's `current_totp` is. */
  datatype TotpOutcome = TotpBody(currentTotp: Option<string>) | TotpThrown

  datatype LogoutOutcome = LogoutResponded | LogoutThrown

  // ---------------------------------------------------------------------------
  // Session persistence in local storage

  /** `localStorage.getItem`: null for a missing key. */
  function GetItem(storage: map<string, string>, key: string): Option<string> {
    if key in storage then Some(storage[key]) else None
  }

  /** JavaScript truthiness of `getItem`'s result: null and "" are both false. */
  predicate Truthy(item: Option<string>) {
    item.Some? && item.value != ""
  }

  /** The session the mount effect restores: both entries must be present and non-empty. */
  function RestoredUser(storage: map<string, string>): (u: Option<User>)
    ensures u.Some? <==>
      && AuthTokenKey in storage && storage[AuthTokenKey] != ""
      && UsernameKey in storage && storage[UsernameKey] != ""
    ensures u.Some? ==>
      && u.value.token == storage[AuthTokenKey]
      && u.value.username == storage[UsernameKey]
      && u.value.expiresIn == RestoredExpiresIn
  {
    var token := GetItem(storage, AuthTokenKey);
    var username := GetItem(storage, UsernameKey);
    if Truthy(token) && Truthy(username) then Some(User(username.value, token.value, RestoredExpiresIn))
    else None
  }

  /** The two `setItem` calls of a successful login. */
  function PersistSession(storage: map<string, string>, token: string, username: string): (s: map<string, string>)
    ensures s.Keys == storage.Keys + {AuthTokenKey, UsernameKey}
    ensures s[AuthTokenKey] == token && s[UsernameKey] == username
    ensures forall k :: k in storage && k != AuthTokenKey && k != UsernameKey ==> s[k] == storage[k]
  {
    storage[AuthTokenKey := token][UsernameKey := username]
  }

  /** The two `removeItem` calls of a logout. */
  function ClearSession(storage: map<string, string>): (s: map<string, string>)
    ensures s.Keys == storage.Keys - {AuthTokenKey, UsernameKey}
    ensures forall k :: k in s ==> s[k] == storage[k]
  {
    storage - {AuthTokenKey, UsernameKey}
  }

  /**
    A reload after a successful login restores that login's username and token
    (with the default expiry), unless the backend sent an empty one of the two.
  */
  lemma ReloadAfterLogin(storage: map<string, string>, token: string, username: string)
    ensures RestoredUser(PersistSession(storage, token, username))
         == if token != "" && username != "" then Some(User(username, token, RestoredExpiresIn)) else None
  {
  }

  /** A reload after a logout restores no session, whatever else the storage holds. */
  lemma ReloadAfterLogout(storage: map<string, string>)
    ensures RestoredUser(ClearSession(storage)).None?
  {
  }

  // ---------------------------------------------------------------------------
  // Messages and badges

  /** The error of a rejected login: the backend's `detail` if it is non-empty, else "Login failed". */
  function LoginErrorMessage(detail: Option<string>): (m: string)
    ensures m != ""
    ensures detail.Some? && detail.value != "" ==> m == detail.value
    ensures detail.None? || detail.value == "" ==> m == LoginFailedMessage
  {
    if detail.Some? && detail.value != "" then detail.value else LoginFailedMessage
  }

  /** The recommendation badge's class: green for BUY, red for SELL, yellow for anything else. */
  function RecommendationColor(recommendation: string): (c: string)
    ensures c == "bg-green-500" <==> recommendation == "BUY"
    ensures c == "bg-red-500" <==> recommendation == "SELL"
    ensures c == "bg-yellow-500" <==> recommendation != "BUY" && recommendation != "SELL"
  {
    match recommendation
    case "BUY" => "bg-green-500"
    case "SELL" => "bg-red-500"
    case _ => "bg-yellow-500"
  }

  // ---------------------------------------------------------------------------
  // The page's state and its handlers

  class Home {
    var user: Option<User>
    var loading: bool
    var error: string
    var success: string

    // The login form
    var username: string
    var pin: string
    var totp: Option<string>         // None: `undefined`, set by a body without a code
    var currentTotp: Option<string>

    var stockData: Option<StockData>
    var watchlistData: Option<Watchlist>
    var watchlistSymbols: string

    /** The browser's local storage. */
    var storage: map<string, string>

    /** A signed-in user's token and username are what local storage holds. */
    ghost predicate SessionPersisted()
      reads this
    {
      user.Some? ==>
        && AuthTokenKey in storage && storage[AuthTokenKey] == user.value.token
        && UsernameKey in storage && storage[UsernameKey] == user.value.username
    }

    /** The page as first rendered, over whatever local storage already holds. */
    constructor (storage: map<string, string>)
      ensures this.storage == storage
      ensures user.None? && !loading && error == "" && success == ""
      ensures username == "demo_user" && pin == "1234" && totp == Some("") && currentTotp == Some("")
      ensures stockData.None? && watchlistData.None?
      ensures watchlistSymbols == "RELIANCE,TCS,INFY,HDFCBANK,ICICIBANK"
      ensures SessionPersisted()
    {
      user, loading, error, success := None, false, "", "";
      username, pin, totp, currentTotp := "demo_user", "1234", Some(""), Some("");
      stockData, watchlistData := None, None;
      watchlistSymbols := "RELIANCE,TCS,INFY,HDFCBANK,ICICIBANK";
      this.storage := storage;
    }

    /** The mount effect: sign in from local storage when both entries are there; storage is only read. */
    method RestoreOnMount()
      modifies this`user
      ensures RestoredUser(storage).Some? ==> user == RestoredUser(storage)
      ensures RestoredUser(storage).None? ==> user == old(user)
      ensures old(SessionPersisted()) ==> SessionPersisted()
    {
      var token := GetItem(storage, AuthTokenKey);
      var name := GetItem(storage, UsernameKey);
      if Truthy(token) && Truthy(name) {
        user := Some(User(name.value, token.value, RestoredExpiresIn));
      }
    }

    /** The demo TOTP refresh: a body's code, even a missing one (`undefined`), goes into both TOTP fields. */
    method GetCurrentTotp(outcome: TotpOutcome) returns (req: Request)
      modifies this`currentTotp, this`totp
      ensures req == TotpRequest
      ensures outcome.TotpBody? ==> currentTotp == totp == outcome.currentTotp
      ensures outcome.TotpThrown? ==> currentTotp == old(currentTotp) && totp == old(totp)
    {
      req := TotpRequest;
      match outcome {
        case TotpBody(code) =>
          currentTotp := code;
          totp := code;
        case TotpThrown =>
      }
    }

    /** Login, before the await: loading on, both messages cleared, the form's credentials sent. */
    method BeginLogin() returns (req: Request)
      modifies this`loading, this`error, this`success
      ensures loading && error == "" && success == ""
      ensures req == LoginRequest(Credentials(username, pin, totp))
    {
      loading := true;
      error := "";
      success := "";
      req := LoginRequest(Credentials(username, pin, totp));
    }

    /** Login, after the await: sign in and persist on success, otherwise report; loading off in every case. */
    method FinishLogin(outcome: LoginOutcome)
      modifies this`user, this`error, this`success, this`storage, this`loading
      ensures !loading
      ensures outcome.LoginOk? ==>
        && user == Some(User(outcome.userInfoUsername, outcome.accessToken, outcome.expiresIn))
        && storage == PersistSession(old(storage), outcome.accessToken, outcome.userInfoUsername)
        && success == LoginSuccessMessage && error == old(error)
      ensures outcome.LoginRejected? ==>
        && user == old(user) && storage == old(storage)
        && error == LoginErrorMessage(outcome.detail) && success == old(success)
      ensures outcome.LoginThrown? ==>
        && user == old(user) && storage == old(storage)
        && error == LoginNetworkMessage && success == old(success)
      ensures old(SessionPersisted()) ==> SessionPersisted()
    {
      match outcome {
        case LoginOk(accessToken, expiresIn, name) =>
          user := Some(User(name, accessToken, expiresIn));
          success := LoginSuccessMessage;
          storage := storage[AuthTokenKey := accessToken];
          storage := storage[UsernameKey := name];
        case LoginRejected(detail) =>
          error := LoginErrorMessage(detail);
        case LoginThrown =>
          error := LoginNetworkMessage;
      }
      loading := false;
    }

    /** The login form's submit handler. */
    method HandleLogin(outcome: LoginOutcome) returns (req: Request)
      modifies this`user, this`error, this`success, this`storage, this`loading
      ensures req == LoginRequest(Credentials(username, pin, totp))
      ensures !loading
      ensures outcome.LoginOk? ==>
        && user == Some(User(outcome.userInfoUsername, outcome.accessToken, outcome.expiresIn))
        && storage == PersistSession(old(storage), outcome.accessToken, outcome.userInfoUsername)
        && success == LoginSuccessMessage && error == ""
      ensures !outcome.LoginOk? ==> user == old(user) && storage == old(storage) && success == ""
      ensures outcome.LoginRejected? ==> error == LoginErrorMessage(outcome.detail)
      ensures outcome.LoginThrown? ==> error == LoginNetworkMessage
      ensures old(SessionPersisted()) ==> SessionPersisted()
    {
      req := BeginLogin();
      FinishLogin(outcome);
    }

    /** Logout: whatever the backend does, the session and its storage entries are gone. */
    method HandleLogout(outcome: LogoutOutcome) returns (req: Request)
      modifies this`user, this`storage, this`success
      ensures req == LogoutRequest
      ensures user.None?
      ensures storage == ClearSession(old(storage))
      ensures success == LogoutSuccessMessage
      ensures SessionPersisted()
    {
      req := LogoutRequest;
      user := None;
      storage := storage - {AuthTokenKey};
      storage := storage - {UsernameKey};
      success := LogoutSuccessMessage;
    }

    /** Single-symbol fetch, before the await: without a user nothing is sent and nothing changes. */
    method BeginStockFetch(symbol: string) returns (req: Option<Request>)
      modifies this`loading
      ensures user.None? ==> req.None? && loading == old(loading)
      ensures user.Some? ==> req == Some(AuthorizedGet(StockUrl(symbol), user.value.token)) && loading
    {
      if user.None? {
        return None;
      }
      loading := true;
      req := Some(AuthorizedGet(StockUrl(symbol), user.value.token));
    }

    /** Single-symbol fetch, after the await: new data replaces the old, a failure keeps it and reports. */
    method FinishStockFetch(outcome: FetchOutcome<StockData>)
      modifies this`stockData, this`error, this`loading
      ensures !loading
      ensures outcome.FetchOk? ==> stockData == Some(outcome.payload) && error == old(error)
      ensures outcome.FetchNotOk? ==> stockData == old(stockData) && error == StockFailedMessage
      ensures outcome.FetchThrown? ==> stockData == old(stockData) && error == StockNetworkMessage
    {
      match outcome {
        case FetchOk(data) => stockData := Some(data);
        case FetchNotOk => error := StockFailedMessage;
        case FetchThrown => error := StockNetworkMessage;
      }
      loading := false;
    }

    /** The "Analyze" handler; `outcome` is only consumed when a request went out. */
    method GetStockData(symbol: string, outcome: FetchOutcome<StockData>) returns (req: Option<Request>)
      modifies this`stockData, this`error, this`loading
      ensures user.None? ==>
        req.None? && stockData == old(stockData) && error == old(error) && loading == old(loading)
      ensures user.Some? ==>
        && req == Some(AuthorizedGet(StockUrl(symbol), user.value.token))
        && !loading
        && (outcome.FetchOk? ==> stockData == Some(outcome.payload) && error == old(error))
        && (outcome.FetchNotOk? ==> stockData == old(stockData) && error == StockFailedMessage)
        && (outcome.FetchThrown? ==> stockData == old(stockData) && error == StockNetworkMessage)
    {
      req := BeginStockFetch(symbol);
      if req.Some? {
        FinishStockFetch(outcome);
      }
    }

    /** Watchlist fetch, before the await: without a user nothing is sent and nothing changes. */
    method BeginWatchlistFetch() returns (req: Option<Request>)
      modifies this`loading
      ensures user.None? ==> req.None? && loading == old(loading)
      ensures user.Some? ==> req == Some(AuthorizedGet(WatchlistUrl(watchlistSymbols), user.value.token)) && loading
    {
      if user.None? {
        return None;
      }
      loading := true;
      req := Some(AuthorizedGet(WatchlistUrl(watchlistSymbols), user.value.token));
    }

    /** Watchlist fetch, after the await: the body's `watchlist` replaces the old map, a failure keeps it. */
    method FinishWatchlistFetch(outcome: FetchOutcome<WatchlistBody>)
      modifies this`watchlistData, this`error, this`loading
      ensures !loading
      ensures outcome.FetchOk? ==> watchlistData == outcome.payload.watchlist && error == old(error)
      ensures outcome.FetchNotOk? ==> watchlistData == old(watchlistData) && error == WatchlistFailedMessage
      ensures outcome.FetchThrown? ==> watchlistData == old(watchlistData) && error == WatchlistNetworkMessage
    {
      match outcome {
        case FetchOk(body) => watchlistData := body.watchlist;
        case FetchNotOk => error := WatchlistFailedMessage;
        case FetchThrown => error := WatchlistNetworkMessage;
      }
      loading := false;
    }

    /** The watchlist "Update" handler; `outcome` is only consumed when a request went out. */
    method GetWatchlistData(outcome: FetchOutcome<WatchlistBody>) returns (req: Option<Request>)
      modifies this`watchlistData, this`error, this`loading
      ensures user.None? ==>
        req.None? && watchlistData == old(watchlistData) && error == old(error) && loading == old(loading)
      ensures user.Some? ==>
        && req == Some(AuthorizedGet(WatchlistUrl(watchlistSymbols), user.value.token))
        && !loading
        && (outcome.FetchOk? ==> watchlistData == outcome.payload.watchlist && error == old(error))
        && (outcome.FetchNotOk? ==> watchlistData == old(watchlistData) && error == WatchlistFailedMessage)
        && (outcome.FetchThrown? ==> watchlistData == old(watchlistData) && error == WatchlistNetworkMessage)
    {
      req := BeginWatchlistFetch();
      if req.Some? {
        FinishWatchlistFetch(outcome);
      }
    }
  }
}
