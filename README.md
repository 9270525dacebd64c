# Stock signal dashboard: session and data-fetch controller

This project models the client side of a stock-signal dashboard in Dafny. A user signs in with a
username, PIN and TOTP code. The session is kept in the page's state and in two local-storage
entries (`auth_token`, `username`), and it is restored from them when the page mounts. While
signed in, the page fetches per-symbol analytics and a watchlist from a backend, sending the
session token as a bearer header. The chart component draws a fabricated price and volume series
around the current price. It colours an RSI bar and a MACD bar, and it places the price relative
to the Bollinger bands.

Files:

- `wrappers.dfy`: the `Option` type, which stands for the source's optional fields, `null` and `undefined`.
- `market_data.dfy`: the payload records `StockData`, `Indicators` and `WatchlistEntry`.
- `dashboard.dfy`: the page controller. `Home` is a class whose fields are the page's state, and local
  storage is one of them, a `map<string, string>`. Each handler is a method. A handler that awaits a
  request is split into a `Begin…` step, which holds the updates made before the await and returns
  the request sent, and a `Finish…` step, which takes the request's outcome. The handler itself runs
  both steps in order. The module also holds the pure rules: request URLs, the restore rule, the
  login error message and the recommendation badge colour.
- `stock_chart.dfy`: the chart rules. `GenerateMockData` is a loop proved against the recursive
  specification `BasePath`. The random draws are parameters. The indicator bars and the Bollinger
  position are functions.

Every request outcome is an input. A login ends in `LoginOk`, `LoginRejected` or `LoginThrown`. A data
fetch ends in `FetchOk`, `FetchNotOk` or `FetchThrown`. The `…Thrown` variants cover transport failures.
They also cover a body that does not parse and a dereference of a missing field, because the code
handles all three in the same `catch`.

Points where the code behaves in a way a reader might not expect:

- Restore on mount needs both stored entries to be non-empty, not only present, because the code
  tests their truthiness. So a login whose token or username is empty is not restored after a
  reload (`ReloadAfterLogin`).
- The TOTP refresh never checks the response status. A non-OK reply whose body has no
  `current_totp` sets both TOTP fields to `undefined` instead of leaving them alone
  (`Home.GetCurrentTotp`). The next login body then has no `totp` key at all, because
  `JSON.stringify` drops an `undefined` field. Only a thrown failure leaves the fields unchanged.
- The watchlist request puts the symbols input text into the query verbatim. It does not join a
  list of symbols.
- A successful data fetch does not clear an earlier error message.

## Model

| member | source | states |
|---|---|---|
| `Dashboard.Home.constructor` | src/app/page.tsx:60-76 | Initial state: no user, not loading, empty messages, form defaults `demo_user`/`1234`, no data, default watchlist symbols, storage as given; the session invariant holds |
| `Dashboard.Home.RestoreOnMount` | src/app/page.tsx:192-198 | Sets `user` to the restored session exactly when `RestoredUser` yields one, else leaves it; only `user` may change (storage is read only); preserves `SessionPersisted` |
| `Dashboard.RestoredUser` | src/app/page.tsx:192-198 | A session is restored iff both `auth_token` and `username` are stored and non-empty; it carries exactly those values and expiry 86400 |
| `Dashboard.PersistSession` | src/app/page.tsx:115-116 | After login's two `setItem` calls the storage maps `auth_token` to the token and `username` to the username; every other entry is unchanged |
| `Dashboard.ClearSession` | src/app/page.tsx:136-137 | Logout removes exactly the two session keys and keeps every other entry |
| `Dashboard.ReloadAfterLogin` | src/app/page.tsx:192-198 | Restoring from the storage a login wrote gives back that username and token with expiry 86400, and nothing when either value is empty |
| `Dashboard.ReloadAfterLogout` | src/app/page.tsx:192-198 | Restoring from storage after a logout yields no session |
| `Dashboard.LoginErrorMessage` | src/app/page.tsx:118 | A rejected login shows the backend's `detail` when non-empty, otherwise `Login failed`; never empty |
| `Dashboard.Home.BeginLogin` | src/app/page.tsx:91-104 | Login first sets loading, clears error and success, and POSTs the form's username, PIN and TOTP (a `None` TOTP is a body without that key) |
| `Dashboard.Home.FinishLogin` | src/app/page.tsx:106-124 | On success: user from `user_info.username`, `access_token`, `expires_in`, storage persisted with exactly those, success `Login successful!`. On rejection: user and storage unchanged, error from `LoginErrorMessage`. On a throw: the network message. Loading ends false; preserves `SessionPersisted` |
| `Dashboard.Home.HandleLogin` | src/app/page.tsx:91-125 | The whole login: request from the form; loading ends false; on failure user and storage unchanged and success empty, with the per-outcome error; on success error empty |
| `Dashboard.Home.HandleLogout` | src/app/page.tsx:128-139 | Whether or not the backend call throws: user absent, both keys removed, success `Logged out successfully`; stock data, watchlist, error and loading are outside its frame |
| `Dashboard.Home.GetCurrentTotp` | src/app/page.tsx:79-88 | A body sets both `currentTotp` and `totp` to its code, or to `undefined` (`None`) when the body has none; a throw changes neither |
| `Dashboard.Bearer` | src/app/page.tsx:149 | The Authorization value is `Bearer ` followed by exactly the token |
| `Dashboard.StockUrl` | src/app/page.tsx:147 | The stock URL is the ltp prefix, then the symbol verbatim, then `?exchange=NSE` |
| `Dashboard.WatchlistUrl` | src/app/page.tsx:172 | The watchlist URL is the `symbols=` prefix, then the input text verbatim, then `&exchange=NSE` |
| `Dashboard.Home.BeginStockFetch` | src/app/page.tsx:142-151 | With no user nothing is sent and loading is unchanged; with one, loading is set and a bearer GET for the stock URL is sent |
| `Dashboard.Home.FinishStockFetch` | src/app/page.tsx:153-163 | Success replaces `stockData` wholesale and keeps the error; a non-OK response or a throw keeps the old data and sets the fixed message; loading ends false |
| `Dashboard.Home.GetStockData` | src/app/page.tsx:142-164 | The whole fetch: no user means no request and no state change; otherwise the request, then the outcome's effect, with loading ending false |
| `Dashboard.Home.BeginWatchlistFetch` | src/app/page.tsx:167-176 | With no user nothing is sent and loading is unchanged; with one, loading is set and a bearer GET for the watchlist URL of the current symbols text is sent |
| `Dashboard.Home.FinishWatchlistFetch` | src/app/page.tsx:178-188 | Success replaces `watchlistData` by the body's `watchlist` and keeps the error; a failure keeps the old map and sets the fixed message; loading ends false |
| `Dashboard.Home.GetWatchlistData` | src/app/page.tsx:167-189 | The whole fetch: no user means no request and no state change; otherwise the request, then the outcome's effect, with loading ending false |
| `Dashboard.RecommendationColor` | src/app/page.tsx:207-213 | `BUY` iff green, `SELL` iff red, every other string iff yellow |
| `StockChart.NextBase` | src/components/StockChart.tsx:41-42 | The next base price is at least 80% of the current one and at least the randomly moved price, and equals one of the two |
| `StockChart.BasePath` | src/components/StockChart.tsx:36-42 | The walk of base prices has one entry per step |
| `StockChart.BasePathAt` | src/components/StockChart.tsx:41-42 | Each entry of the walk is one `NextBase` step from the entry before it, or from the current price for the first |
| `StockChart.BasePathFloor` | src/components/StockChart.tsx:42 | Each base price is at least 0.8 times the previous one |
| `StockChart.BasePathPositive` | src/components/StockChart.tsx:42 | With a positive current price every base price is positive |
| `StockChart.Jitter` | src/components/StockChart.tsx:47-48 | An SMA line point exists iff the indicator is truthy, and lies within 25 of it |
| `StockChart.Volume` | src/components/StockChart.tsx:49 | A volume from a draw in [0,1) lies in [100000, 1099999] |
| `StockChart.GenerateMockData` | src/components/StockChart.tsx:31-57 | 31 points dated 30 days ago to today; the first 30 prices follow `BasePath`, the last equals the current price; the 80% floor between steps; positivity for a positive price; volumes and SMA points from their draws, volumes in bounds |
| `StockChart.RsiValue` | src/components/StockChart.tsx:64 | The RSI bar is the RSI value when present, 0 when absent |
| `StockChart.RsiColor` | src/components/StockChart.tsx:65-66 | Red iff the RSI is present, nonzero and above 70; green iff present, nonzero and below 30; blue otherwise, including an RSI of 0 |
| `StockChart.MacdValue` | src/components/StockChart.tsx:70 | The MACD bar is `macd.macd` when present, 0 when absent |
| `StockChart.MacdColor` | src/components/StockChart.tsx:71 | Green iff MACD is present and its line is above its signal line, red otherwise |
| `StockChart.IndicatorData` | src/components/StockChart.tsx:61-73 | Exactly two bars, `RSI` then `MACD`, with the values and colours above |
| `StockChart.PositionLabel` | src/components/StockChart.tsx:248-250 | Exactly one of three labels: Above iff price > upper; Below iff not above and price < lower; when lower <= upper, Within iff lower <= price <= upper |
| `StockChart.PositionClass` | src/components/StockChart.tsx:243-247 | The colour class agrees with the label: red with Above, green with Below, blue with Within |

## Left out

- Rendering: the JSX, layout, cards, tabs, alerts and recharts charts. This is UI with no state logic.
- HTTP transport, `fetch`, `response.json()` and `JSON.stringify`. Each request is a `Request` value and each response an outcome datatype.
- Interleaving of overlapping handlers, such as the shared `loading` flag being cleared by whichever request finishes first. This is concurrency. The model applies each `Begin…`/`Finish…` pair in sequence, and a `Finish…` step can be called on its own after other steps.
- The 30-second `setInterval` timer that re-runs the TOTP refresh, and its `clearInterval`. This is browser scheduling. Each refresh is one call of `Home.GetCurrentTotp`.
- `console.error` logging in the TOTP refresh and in logout.
- Local storage as durable persistence. It is the `storage` map field of `Home`.
- `toUpperCase` in the symbol inputs' change handlers, a Unicode library call. The form and input fields are public fields that a caller assigns, with the value after the upper-casing.
- Home.GetCurrentTotp: an `undefined` `totp` turns the controlled TOTP input into an uncontrolled one, which keeps showing the previous code. This is rendering and is not modelled; the field itself is `None`.
- Dashboard.LoginErrorMessage: models `detail` as an optional string. A non-string `detail`, such as a validation-error array, is not modelled.
- StockChart.GenerateMockData: `Math.random()` draws are parameters in [0,1). Dates (`new Date`, `toLocaleDateString`) are replaced by a days-ago count. The `toFixed(2)` rounding of prices and SMA points is not modelled, so a point's price is the unrounded base price.
- StockChart.RsiValue: NaN is not modelled. JavaScript's `||` would also turn a NaN into 0.
- The indicator and signal computation (RSI, SMA, MACD, Bollinger). It runs in the backend, which is not part of this model. `backend/test_api.py` is an integration script with no logic of its own, and `backend/config.py` holds only constants.
