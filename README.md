# Trading-Platform: trade ledger and portfolio aggregation in Dafny

This project models the part of the trading-simulation demo that computes
something. That is the Express trade router (`backend/node-api/routes/trade.js`)
and the data series of the React portfolio chart
(`frontend/src/components/PortfolioChart.jsx`). The project proves properties of
that model.

- `options.dfy`, module `Options`: an `Option` type that models JavaScript's
  `undefined`.
- `sums.dfy`, module `Sums`: a left-to-right sum `Sum(s, f)` of a real-valued
  measure over a sequence, the shape of every accumulator loop in both files.
  It comes with lemmas for concatenation, removal, permutation and linearity.
- `trade_routes.dfy`, module `TradeRoutes`. The `authenticate` guard is a pure
  function. `split(' ')[1]` is modelled by `SplitOnSpace`, which follows
  JavaScript's `split` semantics, plus its inverse `JoinWithSpace`. The JWT
  verifier is a function parameter. The module state of `trade.js` is the class
  `TradeRouter`: the simulated `currentPrice` and the trade table, kept as a
  `seq` that `Place` appends to. `Portfolio` selects the caller's trades and runs
  the `forEach` fold (`Fold`, a loop over the two accumulators). Its result is
  specified by `NetQuantity`/`NetValue`, and the lemmas beside them state the
  fold's properties.
- `portfolio_chart.dfy`, module `PortfolioChart`: `BuildSeries` is the `map`
  callback with its running `cumulative` variable, proved against the recursive
  `Series` function. The lemmas give the per-point contract, the prefix
  property, and how the chart's sign rule relates to the back end's.

What the code does, and so what the model does:

- A trade records a user, a type, a quantity, a price and a time. It has no
  symbol, and nothing groups trades by instrument.
- `/portfolio` reports the net quantity and its value at the current price. It
  keeps no average buy price, no unrealised profit and loss, and no balance.
- `/place` checks nothing but the trade type, and a SELL may drive the position
  negative.
- `/portfolio` computes the signed cost `totalValue` but never returns it.
- The chart counts every type other than `BUY` as a sale.
- The routes read the user as `req.user.id`, but the tokens issued at login
  (`backend/node-api/routes/auth.js:43`) carry only a `username`. The decoded
  payload therefore has an optional `id` (see "## Findings").

A trade's `type` field is called `kind`, because `type` is a Dafny keyword.

Inputs that stand in for the outside world:

- The price timer's random step is the `change` argument of `Tick`.
- The database's creation time is the `now` argument of `Place`.
- `jwt.verify` is the `verify` argument, a function from token to
  `Option<Payload>`. `None` stands for a thrown verification error. A `Payload`
  holds the `id` claim, which is `None` when the token has none.
- Prisma drops a filter whose value is `undefined`. `FindMany` models
  `findMany({ where: { userId } })` accordingly: without an id it returns the
  whole table.

## Model

| member | source | states |
|---|---|---|
| `TradeRoutes.SplitOnSpace` | backend/node-api/routes/trade.js:19 | `split(' ')` yields at least one piece, and no piece contains a space |
| `TradeRoutes.JoinSplit` | backend/node-api/routes/trade.js:19 | joining the pieces of a split with single spaces gives back the header |
| `TradeRoutes.SplitJoin` | backend/node-api/routes/trade.js:19 | splitting space-free pieces joined by spaces gives back exactly those pieces |
| `TradeRoutes.TokenIsSecondWord` | backend/node-api/routes/trade.js:19 | for a header `scheme + " " + token + rest` (space-free scheme and token, `rest` empty or starting with a space) the extracted token is `token` |
| `TradeRoutes.TokenDecomposes` | backend/node-api/routes/trade.js:19 | conversely, every extracted token is the word between the first space and the next space or the end |
| `TradeRoutes.NoSpaceNoToken` | backend/node-api/routes/trade.js:19-20 | a header without a space yields no token |
| `TradeRoutes.Authenticate` | backend/node-api/routes/trade.js:18-29 | the result is `Unauthorized` exactly when the token is absent or empty; `InvalidToken` exactly when a token exists and the verifier rejects it; otherwise the user is the one the verifier decoded |
| `TradeRoutes.MissingTokenIgnoresVerifier` | backend/node-api/routes/trade.js:20 | without a token the outcome is `Unauthorized` whatever the verifier would say, so it is never consulted |
| `TradeRoutes.GuardRejections` | backend/node-api/routes/trade.js:18-27 | a request without a usable token is answered 401 `Unauthorized`; a request whose token the verifier rejects is answered 401 `Invalid Token` |
| `TradeRoutes.Fold` | backend/node-api/routes/trade.js:57-68 | the `forEach` loop leaves `totalQuantity` equal to `NetQuantity` and `totalValue` equal to `NetValue` of the trades; an empty list leaves both at 0 |
| `TradeRoutes.NetQuantityIsBuysMinusSells` | backend/node-api/routes/trade.js:57-68 | `totalQuantity` is the sum of BUY quantities minus the sum of SELL quantities |
| `TradeRoutes.OtherTypesContributeNothing` | backend/node-api/routes/trade.js:60-67 | a trade whose type is neither BUY nor SELL, at any position, changes neither accumulator |
| `TradeRoutes.NetIsOrderIndependent` | backend/node-api/routes/trade.js:57-68 | any permutation of the trades gives the same `totalQuantity` and `totalValue` |
| `TradeRoutes.TradesOfMembers` | backend/node-api/routes/trade.js:53-55 | a trade is in the query result exactly when it is in the ledger and its `userId` is the caller's |
| `TradeRoutes.TradesOfAppend` | backend/node-api/routes/trade.js:53-55 | the query over a concatenated ledger is the concatenation of the queries, so ledger order is kept |
| `TradeRoutes.OtherUsersTradeIgnored` | backend/node-api/routes/trade.js:53-55 | appending another user's trade leaves the caller's trades and position unchanged |
| `TradeRoutes.OwnTradeCounted` | backend/node-api/routes/trade.js:53-68 | appending the caller's own trade adds it at the end of their trades and moves their position by its signed quantity |
| `TradeRoutes.MissingIdSeesEveryTrade` | backend/node-api/routes/trade.js:53-68 | for the payload of a login token (no `id`), any user's new trade is added to the caller's query result and moves the caller's position by its signed quantity |
| `TradeRoutes.IssuedTokenSeesForeignTrade` | backend/node-api/routes/trade.js:52-74 | on a router whose table holds a single BUY of 1 by user 7, `Portfolio` called with a login token answers 200 with `totalQuantity` 1 |
| `TradeRoutes.IntendedPayloadIgnoresOtherUsers` | backend/node-api/routes/trade.js:53-55 | with a payload whose `id` names the user, another user's trade leaves the query result unchanged |
| `TradeRoutes.TradeRouter.constructor` | backend/node-api/routes/trade.js:9 | the router starts with price 100 over the trades the table already holds |
| `TradeRoutes.TradeRouter.Tick` | backend/node-api/routes/trade.js:12-15 | one timer step adds a change in [-1, 1) to the price and leaves the ledger alone |
| `TradeRoutes.TradeRouter.Place` | backend/node-api/routes/trade.js:32-49 | a guard failure gives its 401 and a type other than BUY/SELL gives 400 `Invalid trade type`, both with the ledger unchanged; a payload without `id` gets no answer and stores nothing; otherwise exactly one trade is appended, holding the caller's id, the given type and quantity and the price at placement time, and it is returned with `Trade placed`; quantity and position are never checked |
| `TradeRoutes.TradeRouter.Portfolio` | backend/node-api/routes/trade.js:52-75 | a guard failure gives its 401; otherwise the body holds exactly `currentPrice`, the `NetQuantity` of the trades `FindMany` selects for the payload's `id` (the whole table when it has none), and that quantity times `currentPrice` |
| `TradeRoutes.ShortSellAccepted` | backend/node-api/routes/trade.js:32-74 | on a router in any state, a user whose token carries an id and who sells more than they hold is accepted (200), and the portfolio then reports the old position minus the quantity sold, which is negative |
| `PortfolioChart.BuildSeries` | frontend/src/components/PortfolioChart.jsx:5-12 | there is one point per trade, in input order; point `i` has trade `i`'s time and the running quantity after trades `0..i` times trade `i`'s own price; the whole series equals `Series` |
| `PortfolioChart.SeriesAt` | frontend/src/components/PortfolioChart.jsx:6-11 | point `i` of the series is the cumulative signed quantity of trades `0..i` times trade `i`'s price, at trade `i`'s time |
| `PortfolioChart.SeriesLength` | frontend/src/components/PortfolioChart.jsx:6-12 | the series has as many points as there are trades; empty input gives empty output |
| `PortfolioChart.SeriesExtends` | frontend/src/components/PortfolioChart.jsx:5-12 | the series for `trades + [t]` is the series for `trades` followed by exactly one point for `t`, and `cumulative` grows by `t`'s signed quantity |
| `PortfolioChart.ChartVersusBackend` | frontend/src/components/PortfolioChart.jsx:7 | the chart's final `cumulative` is the back end's `totalQuantity` minus the quantity of trades of any other type |
| `PortfolioChart.ChartAgreesWithBackend` | frontend/src/components/PortfolioChart.jsx:7 | when every type is BUY or SELL, the chart's final `cumulative` equals the back end's `totalQuantity` |
| `PortfolioChart.OtherTypeDiverges` | frontend/src/components/PortfolioChart.jsx:7 | a trade of another type lowers the chart's `cumulative` by its quantity but leaves the back end's `totalQuantity` unchanged |

## Left out

- The price timer's randomness (`Math.random`, `setInterval`): the random step is the argument of `Tick`.
- The internals of `jwt.verify`, and every claim of the payload other than `id`: the verifier is a function parameter, and the routes read no other claim.
- TradeRoutes.TradeRouter.Place: with a payload that has no `id`, `create` is taken to reject the row for lack of its owner, so nothing is stored and the request gets no answer. The schema that would decide this is not part of this model. The outcome also assumes Express 4, whose router does not catch a rejected `async` handler (Express 5 would answer 500, and the Express version is not part of this model), and it disregards Node's default of exiting on an unhandled rejection, which would stop the server and reset `currentPrice` to 100 on restart.
- Prisma: `create` and `findMany` act on an in-memory `seq`. The database-assigned trade `id` is not modelled. The schema that defines it is not part of this model. `createdAt` is an argument of `Place`. Database failures and the unhandled rejection they would cause are not modelled.
- Order of `findMany` without `orderBy`: the model returns trades in ledger order. The fold is proved order-independent, so the result does not depend on this.
- JavaScript number semantics: quantities and prices are exact `real`s. IEEE rounding, `NaN` and non-numeric or missing `quantity` values in the request body are not modelled. The body's `type` is taken to be a string.
- The asynchronous request handling and Express plumbing: each handler is one atomic method call.
- The chart's time label: each point keeps the trade's raw `createdAt` instead of its `toLocaleTimeString` string. Rendering is not modelled.
- `auth.js` (registration and login) beyond the payload it signs, the price service, the server bootstrap, and the other React components, including the token-expiry check in `Login.jsx`. They are left out: they consist of hashing, storage, clock and UI code rather than the ledger and its aggregation.

## Findings

| source | as written | input that shows it | evidently intended | confidence | as-written member | corrected member |
|---|---|---|---|---|---|---|
| backend/node-api/routes/trade.js:53-55 | the portfolio query filters on `req.user.id`, but login tokens (`backend/node-api/routes/auth.js:43`) carry no `id`, so the filter is `undefined`, Prisma drops it, and every user's trades are summed | user 7 has one BUY of 1; any other user logs in and asks for `/portfolio` and is told they hold 1 | tokens carry the user's id, so the query selects the caller's trades only | high; not executed | `TradeRoutes.MissingIdSeesEveryTrade`, `TradeRoutes.IssuedTokenSeesForeignTrade` | `TradeRoutes.IntendedPayload`, `TradeRoutes.IntendedPayloadIgnoresOtherUsers` |
