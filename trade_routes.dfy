/**
 * The trade API of the Node back end (backend/node-api/routes/trade.js): the
 * `authenticate` guard, `POST /place`, which appends a trade to the ledger at the
 * current simulated price, and `GET /portfolio`, which folds the caller's trades
 * into a signed position and values it at the current price.
 *
 * The database is an in-memory ledger (a `seq` field), the JWT verifier is a
 * function parameter that yields the decoded payload, and the random price walk
 * is a method that receives the random step.
 */
module TradeRoutes {
  import opened Options
  import opened Sums

  type UserId = int

  const BUY: string := "BUY"
  const SELL: string := "SELL"

  /** A stored trade. `kind` is the record's `type` (a keyword in Dafny). */
  datatype Trade = Trade(userId: UserId, kind: string, quantity: real, price: real, createdAt: int)

  /** The only trade types `/place` accepts. */
  predicate IsTradeType(kind: string)
  {
    kind == BUY || kind == SELL
  }

  // ---------------------------------------------------------------------------
  // The `authenticate` middleware

  /** JavaScript's `s.split(' ')`: the pieces between the spaces, empty pieces included. */
  function SplitOnSpace(s: string): (parts: seq<string>)
    ensures |parts| >= 1
    ensures forall k :: 0 <= k < |parts| ==> ' ' !in parts[k]
  {
    if s == [] then [""]
    else
      var rest := SplitOnSpace(s[1..]);
      if s[0] == ' ' then [""] + rest
      else [[s[0]] + rest[0]] + rest[1..]
  }

  /** JavaScript's `parts.join(' ')`. */
  function JoinWithSpace(parts: seq<string>): string
    requires |parts| >= 1
  {
    if |parts| == 1 then parts[0] else parts[0] + " " + JoinWithSpace(parts[1..])
  }

  /** Joining the pieces of a split gives back the original string. */
  lemma {:induction false} JoinSplit(s: string)
    ensures JoinWithSpace(SplitOnSpace(s)) == s
  {
    if s != [] {
      JoinSplit(s[1..]);
      var rest := SplitOnSpace(s[1..]);
      if s[0] == ' ' {
        assert ([""] + rest)[1..] == rest;
      } else {
        var parts := [[s[0]] + rest[0]] + rest[1..];
        if |rest| > 1 {
          assert parts[1..] == rest[1..];
        }
        assert s == [s[0]] + s[1..];
      }
    }
  }

  /** A split of a string that starts with a space-free word `a` puts `a` in front of the first piece. */
  lemma {:induction false} SplitAfterWord(a: string, r: string)
    requires ' ' !in a
    ensures SplitOnSpace(a + r) == [a + SplitOnSpace(r)[0]] + SplitOnSpace(r)[1..]
  {
    if a != [] {
      var parts := SplitOnSpace(r);
      SplitAfterWord(a[1..], r);
      assert (a + r)[1..] == a[1..] + r;
      assert (a + r)[0] == a[0] != ' ';
      var rest := SplitOnSpace(a[1..] + r);
      assert rest[0] == a[1..] + parts[0] && rest[1..] == parts[1..];
      assert SplitOnSpace(a + r) == [[a[0]] + rest[0]] + rest[1..];
      assert [a[0]] + (a[1..] + parts[0]) == a + parts[0];
    } else {
      var parts := SplitOnSpace(r);
      assert a + r == r;
      assert a + parts[0] == parts[0];
      assert parts == [parts[0]] + parts[1..];
    }
  }

  /** Splitting space-free pieces joined by single spaces gives back the pieces. */
  lemma {:induction false} SplitJoin(parts: seq<string>)
    requires |parts| >= 1
    requires forall k :: 0 <= k < |parts| ==> ' ' !in parts[k]
    ensures SplitOnSpace(JoinWithSpace(parts)) == parts
  {
    if |parts| == 1 {
      SplitAfterWord(parts[0], "");
      assert parts[0] + "" == parts[0];
    } else {
      var tail := JoinWithSpace(parts[1..]);
      SplitJoin(parts[1..]);
      assert JoinWithSpace(parts) == parts[0] + (" " + tail);
      SplitAfterWord(parts[0], " " + tail);
      assert (" " + tail)[1..] == tail;
      assert SplitOnSpace(" " + tail) == [""] + parts[1..];
      assert parts[0] + "" == parts[0];
      assert parts == [parts[0]] + parts[1..];
    }
  }

  /** `req.headers.authorization?.split(' ')[1]`: absent when there is no header or no space. */
  function HeaderToken(authorization: Option<string>): Option<string>
  {
    match authorization
    case None => None
    case Some(h) =>
      var parts := SplitOnSpace(h);
      if |parts| >= 2 then Some(parts[1]) else None
  }

  /** The token is the word between the first space and the second space (or the end). */
  lemma {:induction false} TokenIsSecondWord(scheme: string, token: string, rest: string)
    requires ' ' !in scheme && ' ' !in token
    requires rest == [] || rest[0] == ' '
    ensures HeaderToken(Some(scheme + " " + token + rest)) == Some(token)
  {
    var tail := token + rest;
    assert scheme + " " + token + rest == scheme + (" " + tail);
    SplitAfterWord(scheme, " " + tail);
    assert (" " + tail)[1..] == tail;
    assert SplitOnSpace(" " + tail) == [""] + SplitOnSpace(tail);
    SplitAfterWord(token, rest);
    assert SplitOnSpace(rest)[0] == "" by {
      if rest != [] {
        assert rest[0] == ' ';
      }
    }
    assert token + "" == token;
  }

  /** Conversely, every extracted token sits between the first and the second space. */
  lemma {:induction false} TokenDecomposes(h: string, token: string) returns (scheme: string, rest: string)
    requires HeaderToken(Some(h)) == Some(token)
    ensures h == scheme + " " + token + rest
    ensures ' ' !in scheme && ' ' !in token
    ensures rest == [] || rest[0] == ' '
  {
    var parts := SplitOnSpace(h);
    JoinSplit(h);
    scheme := parts[0];
    rest := if |parts| == 2 then "" else " " + JoinWithSpace(parts[2..]);
    assert parts[1..][1..] == parts[2..];
  }

  /** A header without a space yields no token. */
  lemma {:induction false} NoSpaceNoToken(h: string)
    requires ' ' !in h
    ensures HeaderToken(Some(h)) == None
  {
    SplitJoin([h]);
  }

  /**
   * A decoded JWT payload, as far as the routes read it: the `id` claim behind
   * `req.user.id`, `None` where the token carries no such claim.
   */
  datatype Payload = Payload(id: Option<UserId>)

  /**
   * The payload of every token `/login` issues (backend/node-api/routes/auth.js:43):
   * it is signed over `{ username }` alone, so it has no `id` claim.
   */
  function IssuedPayload(): Payload
  {
    Payload(None)
  }

  /** The payload the routes evidently expect: one whose `id` claim names the user. */
  function IntendedPayload(user: UserId): Payload
  {
    Payload(Some(user))
  }

  /** What the guard decides; `Authenticated` carries the decoded payload (`req.user`). */
  datatype AuthOutcome = Unauthorized | InvalidToken | Authenticated(user: Payload)

  /** The token is missing or empty (`!token` in the source). */
  predicate MissingToken(authorization: Option<string>)
  {
    var token := HeaderToken(authorization);
    token.None? || token.value == ""
  }

  /**
   * The `authenticate` guard; `verify` stands for `jwt.verify` with the server's
   * secret and yields the decoded payload, or `None` where `jwt.verify` throws.
   */
  function Authenticate(authorization: Option<string>, verify: string -> Option<Payload>): (r: AuthOutcome)
    ensures r.Unauthorized? <==> MissingToken(authorization)
    ensures r.InvalidToken? <==> !MissingToken(authorization) && verify(HeaderToken(authorization).value).None?
    ensures r.Authenticated? ==> !MissingToken(authorization) && verify(HeaderToken(authorization).value) == Some(r.user)
  {
    var token := HeaderToken(authorization);
    if token.None? || token.value == "" then Unauthorized
    else
      match verify(token.value)
      case None => InvalidToken
      case Some(payload) => Authenticated(payload)
  }

  /** Without a token the verifier is never consulted: any two verifiers give the same 401. */
  lemma {:induction false} MissingTokenIgnoresVerifier(authorization: Option<string>, v1: string -> Option<Payload>, v2: string -> Option<Payload>)
    requires MissingToken(authorization)
    ensures Authenticate(authorization, v1) == Authenticate(authorization, v2) == Unauthorized
  {
  }

  // ---------------------------------------------------------------------------
  // Responses

  /** A JSON response body of the routes. */
  datatype Body =
    | Message(message: string)
    | Placed(message: string, trade: Trade)
    | Summary(currentPrice: real, totalQuantity: real, portfolioValue: real)

  /**
   * A response, or `Unanswered` where the handler's promise rejects. This is
   * the outcome under Express 4, which does not catch the rejection of an
   * `async` handler, with the server kept running; Express 5 would answer 500,
   * and Node's default exit on an unhandled rejection is not modelled.
   */
  datatype Response = Response(status: int, body: Body) | Unanswered

  /** The 401 response of the guard. */
  function Rejection(auth: AuthOutcome): Response
    requires !auth.Authenticated?
  {
    if auth.Unauthorized? then Response(401, Message("Unauthorized"))
    else Response(401, Message("Invalid Token"))
  }

  /** Which request draws which 401: no usable token, or a token the verifier rejects. */
  lemma {:induction false} GuardRejections(authorization: Option<string>, verify: string -> Option<Payload>)
    ensures MissingToken(authorization) ==>
      Rejection(Authenticate(authorization, verify)) == Response(401, Message("Unauthorized"))
    ensures !MissingToken(authorization) && verify(HeaderToken(authorization).value).None? ==>
      Rejection(Authenticate(authorization, verify)) == Response(401, Message("Invalid Token"))
  {
  }

  // ---------------------------------------------------------------------------
  // The portfolio fold

  /** What one trade adds to `totalQuantity`: types other than BUY and SELL add nothing. */
  function SignedQuantity(t: Trade): real
  {
    if t.kind == BUY then t.quantity else if t.kind == SELL then -t.quantity else 0.0
  }

  /** What one trade adds to `totalValue`. */
  function SignedValue(t: Trade): real
  {
    if t.kind == BUY then t.price * t.quantity
    else if t.kind == SELL then -(t.price * t.quantity)
    else 0.0
  }

  function BuyQuantity(t: Trade): real
  {
    if t.kind == BUY then t.quantity else 0.0
  }

  function SellQuantity(t: Trade): real
  {
    if t.kind == SELL then t.quantity else 0.0
  }

  /** The worth of a position of `quantity` units at `price`. */
  function Worth(quantity: real, price: real): real
  {
    quantity * price
  }

  /** The net position of a list of trades. */
  function NetQuantity(trades: seq<Trade>): real
  {
    Sum(trades, SignedQuantity)
  }

  /** The net signed cost of a list of trades. */
  function NetValue(trades: seq<Trade>): real
  {
    Sum(trades, SignedValue)
  }

  /** The net position is everything bought minus everything sold. */
  lemma {:induction false} NetQuantityIsBuysMinusSells(trades: seq<Trade>)
    ensures NetQuantity(trades) == Sum(trades, BuyQuantity) - Sum(trades, SellQuantity)
  {
    SumDifference(trades, BuyQuantity, SellQuantity, SignedQuantity);
  }

  /** A trade of any other type, wherever it sits, changes neither accumulator. */
  lemma {:induction false} OtherTypesContributeNothing(before: seq<Trade>, t: Trade, after: seq<Trade>)
    requires !IsTradeType(t.kind)
    ensures NetQuantity(before + [t] + after) == NetQuantity(before + after)
    ensures NetValue(before + [t] + after) == NetValue(before + after)
  {
    var all := before + [t] + after;
    assert all[..|before|] + all[|before| + 1..] == before + after;
    SumRemove(all, |before|, SignedQuantity);
    SumRemove(all, |before|, SignedValue);
  }

  /** The fold is order-independent. */
  lemma {:induction false} NetIsOrderIndependent(a: seq<Trade>, b: seq<Trade>)
    requires multiset(a) == multiset(b)
    ensures NetQuantity(a) == NetQuantity(b)
    ensures NetValue(a) == NetValue(b)
  {
    SumPermutation(a, b, SignedQuantity);
    SumPermutation(a, b, SignedValue);
  }

  /** The `forEach` of `/portfolio`: the two accumulators after every trade. */
  method Fold(trades: seq<Trade>) returns (totalQuantity: real, totalValue: real)
    ensures totalQuantity == NetQuantity(trades)
    ensures totalValue == NetValue(trades)
    ensures trades == [] ==> totalQuantity == 0.0 && totalValue == 0.0
  {
    totalQuantity, totalValue := 0.0, 0.0;
    for i := 0 to |trades|
      invariant totalQuantity == NetQuantity(trades[..i])
      invariant totalValue == NetValue(trades[..i])
    {
      var trade := trades[i];
      if trade.kind == BUY {
        totalQuantity := totalQuantity + trade.quantity;
        totalValue := totalValue + trade.price * trade.quantity;
      } else if trade.kind == SELL {
        totalQuantity := totalQuantity - trade.quantity;
        totalValue := totalValue - trade.price * trade.quantity;
      }
      assert trades[..i + 1][..i] == trades[..i];
    }
    assert trades[..|trades|] == trades;
  }

  // ---------------------------------------------------------------------------
  // The ledger query

  /** `prisma.trade.findMany({ where: { userId } })`: the user's trades, in ledger order. */
  function TradesOf(ledger: seq<Trade>, user: UserId): seq<Trade>
  {
    if ledger == [] then []
    else
      var last := ledger[|ledger| - 1];
      TradesOf(ledger[..|ledger| - 1], user) + (if last.userId == user then [last] else [])
  }

  /** The query returns exactly the ledger's trades that belong to the user. */
  lemma {:induction false} TradesOfMembers(ledger: seq<Trade>, user: UserId, t: Trade)
    ensures t in TradesOf(ledger, user) <==> t in ledger && t.userId == user
  {
    if ledger != [] {
      var n := |ledger| - 1;
      TradesOfMembers(ledger[..n], user, t);
      assert ledger == ledger[..n] + [ledger[n]];
    }
  }

  /** Querying a concatenated ledger concatenates the answers. */
  lemma {:induction false} TradesOfAppend(a: seq<Trade>, b: seq<Trade>, user: UserId)
    ensures TradesOf(a + b, user) == TradesOf(a, user) + TradesOf(b, user)
  {
    if b == [] {
      assert a + b == a;
    } else {
      var n := |b| - 1;
      assert (a + b)[..|a + b| - 1] == a + b[..n];
      TradesOfAppend(a, b[..n], user);
    }
  }

  /** A trade appended for another user is invisible to this user's portfolio. */
  lemma {:induction false} OtherUsersTradeIgnored(ledger: seq<Trade>, t: Trade, user: UserId)
    requires t.userId != user
    ensures TradesOf(ledger + [t], user) == TradesOf(ledger, user)
    ensures NetQuantity(TradesOf(ledger + [t], user)) == NetQuantity(TradesOf(ledger, user))
  {
    TradesOfAppend(ledger, [t], user);
    assert TradesOf([t], user) == [];
    assert TradesOf(ledger, user) + [] == TradesOf(ledger, user);
  }

  /** A trade appended for the user moves their position by its signed quantity. */
  lemma {:induction false} OwnTradeCounted(ledger: seq<Trade>, t: Trade)
    ensures TradesOf(ledger + [t], t.userId) == TradesOf(ledger, t.userId) + [t]
    ensures NetQuantity(TradesOf(ledger + [t], t.userId)) == NetQuantity(TradesOf(ledger, t.userId)) + SignedQuantity(t)
  {
    var before := TradesOf(ledger, t.userId);
    TradesOfAppend(ledger, [t], t.userId);
    assert TradesOf([t], t.userId) == [t] by {
      assert [t][..0] == [];
    }
    var mine := before + [t];
    assert mine[..|mine| - 1] == before && mine[|mine| - 1] == t;
    assert NetQuantity(mine) == NetQuantity(before) + SignedQuantity(t);
  }

  /**
   * `prisma.trade.findMany({ where: { userId: id } })`. Prisma drops a filter
   * whose value is `undefined`, so without an id the query returns the whole table.
   */
  function FindMany(ledger: seq<Trade>, id: Option<UserId>): seq<Trade>
  {
    match id
    case None => ledger
    case Some(user) => TradesOf(ledger, user)
  }

  /**
   * As written: for a payload without `id` (every token `/login` issues), any
   * user's trade moves the caller's portfolio by its signed quantity.
   */
  lemma {:induction false} MissingIdSeesEveryTrade(ledger: seq<Trade>, t: Trade)
    ensures FindMany(ledger + [t], IssuedPayload().id) == FindMany(ledger, IssuedPayload().id) + [t]
    ensures NetQuantity(FindMany(ledger + [t], IssuedPayload().id)) == NetQuantity(FindMany(ledger, IssuedPayload().id)) + SignedQuantity(t)
  {
    var all := ledger + [t];
    assert all[..|all| - 1] == ledger && all[|all| - 1] == t;
  }

  /**
   * A concrete case: user 7 holds one BUY of 1, and `/portfolio` called with a
   * login token (header `B x`) reports a position of 1 to the caller.
   */
  method IssuedTokenSeesForeignTrade() returns (resp: Response)
    ensures resp.Response? && resp.status == 200
    ensures resp.body.Summary? && resp.body.totalQuantity == 1.0
  {
    var trade := Trade(7, BUY, 1.0, 100.0, 0);
    var router := new TradeRouter([trade]);
    TokenIsSecondWord("B", "x", "");
    MissingIdSeesEveryTrade([], trade);
    assert [] + [trade] == [trade];
    resp := router.Portfolio(Some("B x"), s => Some(IssuedPayload()));
  }

  /** As intended: with a payload that names the user, another user's trade is invisible. */
  lemma {:induction false} IntendedPayloadIgnoresOtherUsers(ledger: seq<Trade>, t: Trade, user: UserId)
    requires t.userId != user
    ensures FindMany(ledger + [t], IntendedPayload(user).id) == FindMany(ledger, IntendedPayload(user).id)
  {
    OtherUsersTradeIgnored(ledger, t, user);
  }

  // ---------------------------------------------------------------------------
  // The router state

  /** The module state of trade.js: the simulated price and the trade table. */
  class TradeRouter {
    var ledger: seq<Trade>
    var currentPrice: real

    /** Loading the module: the price starts at 100; the table keeps the rows it already holds. */
    constructor (initial: seq<Trade>)
      ensures ledger == initial && currentPrice == 100.0
    {
      ledger := initial;
      currentPrice := 100.0;
    }

    /** One step of the five-second price timer; `change` is `(Math.random() - 0.5) * 2`. */
    method Tick(change: real)
      requires -1.0 <= change < 1.0
      modifies this
      ensures currentPrice == old(currentPrice) + change
      ensures ledger == old(ledger)
    {
      currentPrice := currentPrice + change;
    }

    /**
     * `POST /place`. Only the type is validated: neither the quantity nor the
     * user's position is checked. `now` is the creation time the database stamps.
     * A payload without `id` leaves `create` without its owner, which it rejects;
     * the request then goes unanswered and the router keeps its state, as under
     * Express 4 with the server kept running.
     */
    method Place(authorization: Option<string>, verify: string -> Option<Payload>,
                 kind: string, quantity: real, now: int) returns (resp: Response)
      modifies this
      ensures currentPrice == old(currentPrice)
      ensures var auth := Authenticate(authorization, verify);
        if !auth.Authenticated? then
          resp == Rejection(auth) && ledger == old(ledger)
        else if !IsTradeType(kind) then
          resp == Response(400, Message("Invalid trade type")) && ledger == old(ledger)
        else if auth.user.id.None? then
          resp == Unanswered && ledger == old(ledger)
        else
          var trade := Trade(auth.user.id.value, kind, quantity, old(currentPrice), now);
          ledger == old(ledger) + [trade] && resp == Response(200, Placed("Trade placed", trade))
    {
      var auth := Authenticate(authorization, verify);
      if !auth.Authenticated? {
        return Rejection(auth);
      }
      if !IsTradeType(kind) {
        return Response(400, Message("Invalid trade type"));
      }
      if auth.user.id.None? {
        return Unanswered;
      }
      var trade := Trade(auth.user.id.value, kind, quantity, currentPrice, now);
      ledger := ledger + [trade];
      resp := Response(200, Placed("Trade placed", trade));
    }

    /**
     * `GET /portfolio`: the net position of the trades the query selects, valued
     * at the current price. The signed cost `totalValue` is accumulated but is not
     * part of the response.
     */
    method Portfolio(authorization: Option<string>, verify: string -> Option<Payload>) returns (resp: Response)
      ensures var auth := Authenticate(authorization, verify);
        if !auth.Authenticated? then resp == Rejection(auth)
        else
          var position := NetQuantity(FindMany(ledger, auth.user.id));
          resp == Response(200, Summary(currentPrice, position, Worth(position, currentPrice)))
    {
      var auth := Authenticate(authorization, verify);
      if !auth.Authenticated? {
        return Rejection(auth);
      }
      var trades := FindMany(ledger, auth.user.id);
      var totalQuantity, totalValue := Fold(trades);
      resp := Response(200, Summary(currentPrice, totalQuantity, Worth(totalQuantity, currentPrice)));
    }
  }

  /**
   * A user whose id the token carries sells more than they hold, on a router in
   * any state: the sale is accepted and the portfolio then reports a negative
   * position, since `/place` checks no holdings.
   */
  method ShortSellAccepted(router: TradeRouter, authorization: Option<string>, verify: string -> Option<Payload>,
                           quantity: real, now: int) returns (placed: Response, portfolio: Response)
    requires Authenticate(authorization, verify).Authenticated?
    requires Authenticate(authorization, verify).user.id.Some?
    requires quantity > NetQuantity(TradesOf(router.ledger, Authenticate(authorization, verify).user.id.value))
    modifies router
    ensures placed.Response? && placed.status == 200
    ensures var held := old(NetQuantity(TradesOf(router.ledger, Authenticate(authorization, verify).user.id.value)));
      portfolio == Response(200, Summary(router.currentPrice, held - quantity, Worth(held - quantity, router.currentPrice)))
      && held - quantity < 0.0
  {
    var user := Authenticate(authorization, verify).user.id.value;
    ghost var before := router.ledger;
    var trade := Trade(user, SELL, quantity, router.currentPrice, now);
    placed := router.Place(authorization, verify, SELL, quantity, now);
    assert router.ledger == before + [trade];
    OwnTradeCounted(before, trade);
    assert NetQuantity(TradesOf(router.ledger, user)) == NetQuantity(TradesOf(before, user)) - quantity;
    portfolio := router.Portfolio(authorization, verify);
  }
}
