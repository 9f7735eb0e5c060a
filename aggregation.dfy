/**
 * loadUserOrders: the route's handler. It turns the dash-separated symbol of
 * the URL into the slash-separated one, picks the user's credential for each
 * of Binance, Huobi and FTX, runs the loaders in that order and appends what
 * they return to one response. The stored credentials, the raw symbol and the
 * three exchange clients are its inputs.
 */
module Aggregation {
  import opened Builtins
  import opened Orders
  import opened Exchanges

  /** `symbol.replace('-', '/')`: the first dash becomes a slash, nothing else changes. */
  function FormatSymbol(raw: string): (s: string)
    ensures |s| == |raw|
    ensures '-' !in raw ==> s == raw
    ensures '-' in raw ==>
      var k := IndexOf(raw, '-');
      && 0 <= k < |raw| && '-' !in raw[..k]
      && s == raw[..k] + "/" + raw[k + 1..]
  {
    ReplaceFirstSpec(raw, '-', '/');
    ReplaceFirst(raw, '-', '/')
  }

  /** Every character but the first dash is kept in place. */
  lemma FormatSymbolKeepsOthers(raw: string, i: nat)
    requires i < |raw| && i != IndexOf(raw, '-')
    ensures FormatSymbol(raw)[i] == raw[i]
  {
  }

  /** `userExchanges.find(exchange => exchange.id.toLowerCase() === exchangeId)`. */
  function SelectCredential(creds: seq<Credential>, exchangeId: string): (r: Option<Credential>)
    ensures r.None? <==> forall i :: 0 <= i < |creds| ==> ToLower(creds[i].id) != exchangeId
    ensures r.Some? ==>
      exists k :: 0 <= k < |creds| && creds[k] == r.value && ToLower(creds[k].id) == exchangeId
        && forall j :: 0 <= j < k ==> ToLower(creds[j].id) != exchangeId
  {
    Find(creds, (c: Credential) => ToLower(c.id) == exchangeId)
  }

  /** One `if (userExchanges.find(...)) { ... loadXOrders(...) ... }` block for Binance or Huobi. */
  function SpotStep(creds: seq<Credential>, exchangeId: string, name: string, symbol: string, client: SpotClient): (r: Result<Option<OrderLists>, Error>)
    ensures r.Err? ==> r.error == AuthenticationError(name)
    ensures r.Ok? && r.value.Some? ==> SelectCredential(creds, exchangeId).Some? && IsListed(client.markets, symbol)
  {
    match SelectCredential(creds, exchangeId)
    case None => Ok(None)
    case Some(cred) => SpotLoad(name, cred, symbol, client)
  }

  /** The FTX block. */
  function FtxStep(creds: seq<Credential>, symbol: string, client: FtxClient): (r: Result<Option<OrderLists>, Error>)
    ensures r.Err? ==> r.error == UndefinedSubaccount || r.error == AuthenticationError("FTX")
    ensures r.Ok? && r.value.Some? ==> SelectCredential(creds, "ftx").Some? && IsListed(client.markets, symbol)
  {
    match SelectCredential(creds, "ftx")
    case None => Ok(None)
    case Some(cred) => FtxLoad(cred, symbol, client)
  }

  /** What a loader's result adds to the response: nothing when it returned `undefined`. */
  function Contribution(r: Option<OrderLists>): (c: OrderLists)
  {
    match r
    case None => OrderLists([], [])
    case Some(lists) => lists
  }

  /** The pair of `push(...)` calls: `more`'s lists go after what `acc` holds. */
  function Append(acc: OrderLists, more: OrderLists): (r: OrderLists)
    ensures |r.openOrders| == |acc.openOrders| + |more.openOrders|
    ensures |r.closedOrders| == |acc.closedOrders| + |more.closedOrders|
    ensures forall k :: 0 <= k < |acc.openOrders| ==> r.openOrders[k] == acc.openOrders[k]
    ensures forall k :: 0 <= k < |acc.closedOrders| ==> r.closedOrders[k] == acc.closedOrders[k]
  {
    OrderLists(acc.openOrders + more.openOrders, acc.closedOrders + more.closedOrders)
  }

  /**
   * The outcome of loadUserOrders: the response, or the first error a loader
   * throws (nothing catches it, so the request fails as a whole).
   */
  function Aggregate(creds: seq<Credential>, raw: string, binance: SpotClient, huobi: SpotClient, ftx: FtxClient): (r: Result<OrderLists, Error>)
    ensures r.Err? ==> r.error in {AuthenticationError("Binance"), AuthenticationError("Huobi"), AuthenticationError("FTX"), UndefinedSubaccount}
  {
    var symbol := FormatSymbol(raw);
    match SpotStep(creds, "binance", "Binance", symbol, binance)
    case Err(e) => Err(e)
    case Ok(b) =>
      match SpotStep(creds, "huobi", "Huobi", symbol, huobi)
      case Err(e) => Err(e)
      case Ok(h) =>
        match FtxStep(creds, symbol, ftx)
        case Err(e) => Err(e)
        case Ok(f) => Ok(Append(Append(Append(OrderLists([], []), Contribution(b)), Contribution(h)), Contribution(f)))
  }

  // ---------------------------------------------------------------------------
  // A reference description of the response, written from the client data.

  /** The exchange is queried and its loader gets past the market guard. */
  ghost predicate Contributes(creds: seq<Credential>, exchangeId: string, markets: seq<Market>, symbol: string)
  {
    SelectCredential(creds, exchangeId).Some? && IsListed(markets, symbol)
  }

  ghost predicate SpotRejects(creds: seq<Credential>, exchangeId: string, symbol: string, client: SpotClient)
  {
    Contributes(creds, exchangeId, client.markets, symbol)
    && var cred := SelectCredential(creds, exchangeId).value;
    !client.acceptsCredentials(cred.apiKey, cred.apiSecret)
  }

  ghost predicate FtxRejects(creds: seq<Credential>, symbol: string, client: FtxClient)
  {
    Contributes(creds, "ftx", client.markets, symbol)
    && var cred := SelectCredential(creds, "ftx").value;
    (SubaccountHeader(cred.extraFields).Err? || !client.acceptsCredentials(cred.apiKey, cred.apiSecret))
  }

  /** The full order list FTX returns under the header the user's extra fields select. */
  ghost function FtxFetched(creds: seq<Credential>, client: FtxClient): (r: seq<Order>)
  {
    match SelectCredential(creds, "ftx")
    case None => []
    case Some(cred) =>
      match SubaccountHeader(cred.extraFields)
      case Err(_) => []
      case Ok(header) => client.orders(header)
  }

  ghost function Part(included: bool, orders: seq<Order>, name: string): (r: seq<Order>)
  {
    if included then Tagged(orders, name) else []
  }

  /** Binance's, then Huobi's, then FTX's orders, each tagged, an exchange that does not contribute adding none. */
  ghost function ExpectedResponse(creds: seq<Credential>, raw: string, binance: SpotClient, huobi: SpotClient, ftx: FtxClient): (r: OrderLists)
  {
    var symbol := FormatSymbol(raw);
    var b := Contributes(creds, "binance", binance.markets, symbol);
    var h := Contributes(creds, "huobi", huobi.markets, symbol);
    var f := Contributes(creds, "ftx", ftx.markets, symbol);
    var ftxLists := FtxPartition(FtxFetched(creds, ftx), symbol);
    OrderLists(
      Part(b, binance.fetchOpenOrders(symbol), "Binance") + Part(h, huobi.fetchOpenOrders(symbol), "Huobi") + Part(f, ftxLists.openOrders, "FTX"),
      Part(b, binance.fetchClosedOrders(symbol), "Binance") + Part(h, huobi.fetchClosedOrders(symbol), "Huobi") + Part(f, ftxLists.closedOrders, "FTX"))
  }

  lemma SpotStepOutcome(creds: seq<Credential>, exchangeId: string, name: string, symbol: string, client: SpotClient)
    ensures var r := SpotStep(creds, exchangeId, name, symbol, client);
      && (r.Err? <==> SpotRejects(creds, exchangeId, symbol, client))
      && (r.Err? ==> r.error == AuthenticationError(name))
      && (r.Ok? ==> Contribution(r.value) == OrderLists(
            Part(Contributes(creds, exchangeId, client.markets, symbol), client.fetchOpenOrders(symbol), name),
            Part(Contributes(creds, exchangeId, client.markets, symbol), client.fetchClosedOrders(symbol), name)))
  {
  }

  lemma FtxStepOutcome(creds: seq<Credential>, symbol: string, client: FtxClient)
    ensures var r := FtxStep(creds, symbol, client);
      var lists := FtxPartition(FtxFetched(creds, client), symbol);
      && (r.Err? <==> FtxRejects(creds, symbol, client))
      && (r.Err? ==> r.error == if SubaccountHeader(SelectCredential(creds, "ftx").value.extraFields).Err? then UndefinedSubaccount else AuthenticationError("FTX"))
      && (r.Ok? ==> Contribution(r.value) == OrderLists(
            Part(Contributes(creds, "ftx", client.markets, symbol), lists.openOrders, "FTX"),
            Part(Contributes(creds, "ftx", client.markets, symbol), lists.closedOrders, "FTX")))
  {
  }

  /**
   * The handler fails exactly when a queried, listing exchange rejects the
   * credential (or, for FTX, lacks the subaccount field), with the first such
   * error in Binance, Huobi, FTX order; otherwise it responds with the
   * concatenation of the three tagged contributions, unsorted.
   */
  lemma {:induction false} AggregateMatchesReference(creds: seq<Credential>, raw: string, binance: SpotClient, huobi: SpotClient, ftx: FtxClient)
    ensures var r := Aggregate(creds, raw, binance, huobi, ftx);
      var symbol := FormatSymbol(raw);
      && (r.Err? <==> SpotRejects(creds, "binance", symbol, binance) || SpotRejects(creds, "huobi", symbol, huobi) || FtxRejects(creds, symbol, ftx))
      && (r.Err? && SpotRejects(creds, "binance", symbol, binance) ==> r.error == AuthenticationError("Binance"))
      && (r.Err? && !SpotRejects(creds, "binance", symbol, binance) && SpotRejects(creds, "huobi", symbol, huobi) ==> r.error == AuthenticationError("Huobi"))
      && (r.Err? && !SpotRejects(creds, "binance", symbol, binance) && !SpotRejects(creds, "huobi", symbol, huobi) ==>
            r.error == if SubaccountHeader(SelectCredential(creds, "ftx").value.extraFields).Err? then UndefinedSubaccount else AuthenticationError("FTX"))
      && (r.Ok? ==> r.value == ExpectedResponse(creds, raw, binance, huobi, ftx))
  {
    var symbol := FormatSymbol(raw);
    SpotStepOutcome(creds, "binance", "Binance", symbol, binance);
    SpotStepOutcome(creds, "huobi", "Huobi", symbol, huobi);
    FtxStepOutcome(creds, symbol, ftx);
    var r := Aggregate(creds, raw, binance, huobi, ftx);
    if r.Ok? {
      var b := Contribution(SpotStep(creds, "binance", "Binance", symbol, binance).value);
      var h := Contribution(SpotStep(creds, "huobi", "Huobi", symbol, huobi).value);
      var f := Contribution(FtxStep(creds, symbol, ftx).value);
      assert r.value == Append(Append(Append(OrderLists([], []), b), h), f);
      assert [] + b.openOrders == b.openOrders;
      assert [] + b.closedOrders == b.closedOrders;
    }
  }

  /** A user with no credential for any of the three exchanges gets two empty lists. */
  lemma NoCredentialsEmptyResponse(creds: seq<Credential>, raw: string, binance: SpotClient, huobi: SpotClient, ftx: FtxClient)
    requires forall i :: 0 <= i < |creds| ==> ToLower(creds[i].id) != "binance" && ToLower(creds[i].id) != "huobi" && ToLower(creds[i].id) != "ftx"
    ensures Aggregate(creds, raw, binance, huobi, ftx) == Ok(OrderLists([], []))
  {
  }

  /**
   * Every order of the response is tagged with the name of an exchange the
   * user has a credential for and that lists the symbol: an exchange that
   * does not list it contributes nothing to either list.
   */
  lemma OrdersComeFromContributingExchanges(creds: seq<Credential>, raw: string, binance: SpotClient, huobi: SpotClient, ftx: FtxClient, o: Order)
    requires Aggregate(creds, raw, binance, huobi, ftx).Ok?
    requires o in Aggregate(creds, raw, binance, huobi, ftx).value.openOrders || o in Aggregate(creds, raw, binance, huobi, ftx).value.closedOrders
    ensures var symbol := FormatSymbol(raw);
      || (o.exchange == Some("Binance") && Contributes(creds, "binance", binance.markets, symbol))
      || (o.exchange == Some("Huobi") && Contributes(creds, "huobi", huobi.markets, symbol))
      || (o.exchange == Some("FTX") && Contributes(creds, "ftx", ftx.markets, symbol))
  {
    AggregateMatchesReference(creds, raw, binance, huobi, ftx);
  }

  /**
   * FTX orders of the response carry the requested symbol and sit in the list
   * their status calls for: "closed" in closedOrders, any other in openOrders.
   */
  lemma FtxOrdersMatchTheirList(creds: seq<Credential>, raw: string, binance: SpotClient, huobi: SpotClient, ftx: FtxClient)
    requires Aggregate(creds, raw, binance, huobi, ftx).Ok?
    ensures var r := Aggregate(creds, raw, binance, huobi, ftx).value;
      && (forall o :: o in r.openOrders && o.exchange == Some("FTX") ==> o.symbol == FormatSymbol(raw) && o.status != "closed")
      && (forall o :: o in r.closedOrders && o.exchange == Some("FTX") ==> o.symbol == FormatSymbol(raw) && o.status == "closed")
  {
    AggregateMatchesReference(creds, raw, binance, huobi, ftx);
    var symbol := FormatSymbol(raw);
    var b := Contributes(creds, "binance", binance.markets, symbol);
    var h := Contributes(creds, "huobi", huobi.markets, symbol);
    var f := Contributes(creds, "ftx", ftx.markets, symbol);
    var lists := FtxPartition(FtxFetched(creds, ftx), symbol);
    var r := Aggregate(creds, raw, binance, huobi, ftx).value;
    forall o | o in r.openOrders && o.exchange == Some("FTX")
      ensures o.symbol == symbol && o.status != "closed"
    {
      InFtxPart(Part(b, binance.fetchOpenOrders(symbol), "Binance"), Part(h, huobi.fetchOpenOrders(symbol), "Huobi"), Part(f, lists.openOrders, "FTX"), o);
      TaggedSource(lists.openOrders, "FTX", o);
    }
    forall o | o in r.closedOrders && o.exchange == Some("FTX")
      ensures o.symbol == symbol && o.status == "closed"
    {
      InFtxPart(Part(b, binance.fetchClosedOrders(symbol), "Binance"), Part(h, huobi.fetchClosedOrders(symbol), "Huobi"), Part(f, lists.closedOrders, "FTX"), o);
      TaggedSource(lists.closedOrders, "FTX", o);
    }
  }

  /** An FTX-stamped order of a response list comes from FTX's part of it. */
  lemma InFtxPart(b: seq<Order>, h: seq<Order>, f: seq<Order>, o: Order)
    requires forall x :: x in b ==> x.exchange == Some("Binance")
    requires forall x :: x in h ==> x.exchange == Some("Huobi")
    requires o in b + h + f && o.exchange == Some("FTX")
    ensures o in f
  {
  }

  /** `client` and `client'` list the same markets and differ at most when the symbol is not among them. */
  ghost predicate SpotAgrees(client: SpotClient, client': SpotClient, symbol: string)
  {
    client'.markets == client.markets && (IsListed(client.markets, symbol) ==> client' == client)
  }

  ghost predicate FtxAgrees(client: FtxClient, client': FtxClient, symbol: string)
  {
    client'.markets == client.markets && (IsListed(client.markets, symbol) ==> client' == client)
  }

  lemma SpotStepIgnoresUnlisted(creds: seq<Credential>, exchangeId: string, name: string, symbol: string, client: SpotClient, client': SpotClient)
    requires SpotAgrees(client, client', symbol)
    ensures SpotStep(creds, exchangeId, name, symbol, client) == SpotStep(creds, exchangeId, name, symbol, client')
  {
  }

  lemma FtxStepIgnoresUnlisted(creds: seq<Credential>, symbol: string, client: FtxClient, client': FtxClient)
    requires FtxAgrees(client, client', symbol)
    ensures FtxStep(creds, symbol, client) == FtxStep(creds, symbol, client')
  {
  }

  /**
   * An exchange that does not list the symbol is never asked for credentials
   * or orders: changing anything about it but its market list changes nothing.
   */
  lemma UnlistedExchangesAreIgnored(creds: seq<Credential>, raw: string,
                                    binance: SpotClient, huobi: SpotClient, ftx: FtxClient,
                                    binance': SpotClient, huobi': SpotClient, ftx': FtxClient)
    requires SpotAgrees(binance, binance', FormatSymbol(raw))
    requires SpotAgrees(huobi, huobi', FormatSymbol(raw))
    requires FtxAgrees(ftx, ftx', FormatSymbol(raw))
    ensures Aggregate(creds, raw, binance, huobi, ftx) == Aggregate(creds, raw, binance', huobi', ftx')
  {
    var symbol := FormatSymbol(raw);
    SpotStepIgnoresUnlisted(creds, "binance", "Binance", symbol, binance, binance');
    SpotStepIgnoresUnlisted(creds, "huobi", "Huobi", symbol, huobi, huobi');
    FtxStepIgnoresUnlisted(creds, symbol, ftx, ftx');
  }

  // ---------------------------------------------------------------------------
  // The handler as written: a response object grown with push(...).

  /** The `response` object of loadUserOrders. */
  class OrderBookResponse {
    var openOrders: seq<Order>
    var closedOrders: seq<Order>

    constructor ()
      ensures openOrders == [] && closedOrders == []
    {
      openOrders := [];
      closedOrders := [];
    }

    /** `response.openOrders.push(...lists.openOrders)` and the same for closedOrders. */
    method PushAll(lists: OrderLists)
      modifies this
      ensures openOrders == old(openOrders) + lists.openOrders
      ensures closedOrders == old(closedOrders) + lists.closedOrders
    {
      openOrders := openOrders + lists.openOrders;
      closedOrders := closedOrders + lists.closedOrders;
    }

    /** `if (loaded) { push both lists }`: a loader's `undefined` adds nothing. */
    method PushIfPresent(loaded: Option<OrderLists>)
      modifies this
      ensures Lists() == Append(old(Lists()), Contribution(loaded))
    {
      if loaded.Some? {
        PushAll(loaded.value);
      } else {
        assert openOrders + [] == openOrders && closedOrders + [] == closedOrders;
      }
    }

    function Lists(): (r: OrderLists)
      reads this
    {
      OrderLists(openOrders, closedOrders)
    }
  }

  /** One `if (userExchanges.find(...)) { ... }` block of loadUserOrders for Binance or Huobi, up to the push. */
  method QuerySpot(creds: seq<Credential>, exchangeId: string, name: string, symbol: string, client: SpotClient) returns (r: Result<Option<OrderLists>, Error>)
    ensures r == SpotStep(creds, exchangeId, name, symbol, client)
  {
    var cred := SelectCredential(creds, exchangeId);
    if cred.None? {
      return Ok(None);
    }
    r := LoadSpotOrders(name, cred.value, symbol, client);
  }

  /** The FTX block of loadUserOrders, up to the push. */
  method QueryFtx(creds: seq<Credential>, symbol: string, client: FtxClient) returns (r: Result<Option<OrderLists>, Error>)
    ensures r == FtxStep(creds, symbol, client)
  {
    var cred := SelectCredential(creds, "ftx");
    if cred.None? {
      return Ok(None);
    }
    r := LoadFtxOrders(cred.value, symbol, client);
  }

  method LoadUserOrders(creds: seq<Credential>, raw: string, binance: SpotClient, huobi: SpotClient, ftx: FtxClient) returns (r: Result<OrderLists, Error>)
    ensures r == Aggregate(creds, raw, binance, huobi, ftx)
  {
    var symbol := FormatSymbol(raw);
    var response := new OrderBookResponse();

    var binanceResponse := QuerySpot(creds, "binance", "Binance", symbol, binance);
    if binanceResponse.Err? {
      return Err(binanceResponse.error);
    }
    response.PushIfPresent(binanceResponse.value);
    ghost var afterBinance := Append(OrderLists([], []), Contribution(binanceResponse.value));
    assert response.Lists() == afterBinance;

    var huobiResponse := QuerySpot(creds, "huobi", "Huobi", symbol, huobi);
    if huobiResponse.Err? {
      return Err(huobiResponse.error);
    }
    response.PushIfPresent(huobiResponse.value);
    ghost var afterHuobi := Append(afterBinance, Contribution(huobiResponse.value));
    assert response.Lists() == afterHuobi;

    var ftxResponse := QueryFtx(creds, symbol, ftx);
    if ftxResponse.Err? {
      return Err(ftxResponse.error);
    }
    response.PushIfPresent(ftxResponse.value);
    assert response.Lists() == Append(afterHuobi, Contribution(ftxResponse.value));

    return Ok(response.Lists());
  }
}
