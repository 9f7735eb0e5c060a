/**
 * The per-exchange loaders of the order-book route: loadBinanceOrders,
 * loadHuobiOrders (one shape, told apart by the name they stamp) and
 * loadFTXOrders. Each exchange-library client is an oracle value holding what
 * its calls return for this request.
 */
module Exchanges {
  import opened Builtins
  import opened Orders

  datatype Market = Market(id: string)

  datatype ExtraField = ExtraField(fieldName: string, value: string)

  /** One stored API key of the user: `id` names the exchange. */
  datatype Credential = Credential(id: string, apiKey: string, apiSecret: string, extraFields: seq<ExtraField>)

  /** What a loader can throw. */
  datatype Error =
    | AuthenticationError(exchange: string)  // the library's credential check failed
    | UndefinedSubaccount                    // `.value` read on the `undefined` that `find` returned

  /**
   * A Binance or Huobi client: the market list, the library's verdict on an
   * (apiKey, secret) pair, and what `fetchOpenOrders(symbol)` and
   * `fetchClosedOrders(symbol)` return for each symbol.
   */
  datatype SpotClient = SpotClient(
    markets: seq<Market>,
    acceptsCredentials: (string, string) -> bool,
    fetchOpenOrders: string -> seq<Order>,
    fetchClosedOrders: string -> seq<Order>)

  /**
   * An FTX client: the market list, the credential verdict, and what
   * `fetchOrders()` returns for each value of the FTX-SUBACCOUNT header
   * (None: the header is not set).
   */
  datatype FtxClient = FtxClient(
    markets: seq<Market>,
    acceptsCredentials: (string, string) -> bool,
    orders: Option<string> -> seq<Order>)

  /** `!allMarkets.find(market => market.id === symbol)` is false. */
  function IsListed(markets: seq<Market>, symbol: string): (b: bool)
    ensures b <==> exists i :: 0 <= i < |markets| && markets[i].id == symbol
  {
    Find(markets, (m: Market) => m.id == symbol).Some?
  }

  /** loadBinanceOrders / loadHuobiOrders, with `name` the label they stamp. */
  function SpotLoad(name: string, cred: Credential, symbol: string, client: SpotClient): (r: Result<Option<OrderLists>, Error>)
    ensures r == Ok(None) <==> forall i :: 0 <= i < |client.markets| ==> client.markets[i].id != symbol
    ensures r.Err? <==> IsListed(client.markets, symbol) && !client.acceptsCredentials(cred.apiKey, cred.apiSecret)
    ensures r.Err? ==> r.error == AuthenticationError(name)
    ensures r.Ok? && r.value.Some? ==>
      var lists := r.value.value;
      && |lists.openOrders| == |client.fetchOpenOrders(symbol)|
      && |lists.closedOrders| == |client.fetchClosedOrders(symbol)|
      && (forall k :: 0 <= k < |client.fetchOpenOrders(symbol)| ==> lists.openOrders[k] == client.fetchOpenOrders(symbol)[k].(exchange := Some(name)))
      && (forall k :: 0 <= k < |client.fetchClosedOrders(symbol)| ==> lists.closedOrders[k] == client.fetchClosedOrders(symbol)[k].(exchange := Some(name)))
  {
    if !IsListed(client.markets, symbol) then Ok(None)
    else if !client.acceptsCredentials(cred.apiKey, cred.apiSecret) then Err(AuthenticationError(name))
    else
      TaggedElements(client.fetchOpenOrders(symbol), name);
      TaggedElements(client.fetchClosedOrders(symbol), name);
      Ok(Some(OrderLists(Tagged(client.fetchOpenOrders(symbol), name), Tagged(client.fetchClosedOrders(symbol), name))))
  }

  method LoadSpotOrders(name: string, cred: Credential, symbol: string, client: SpotClient) returns (r: Result<Option<OrderLists>, Error>)
    ensures r == SpotLoad(name, cred, symbol, client)
  {
    if !IsListed(client.markets, symbol) {
      return Ok(None);
    }
    if !client.acceptsCredentials(cred.apiKey, cred.apiSecret) {
      return Err(AuthenticationError(name));
    }
    var openOrders := TagCopy(client.fetchOpenOrders(symbol), name);
    var closedOrders := TagCopy(client.fetchClosedOrders(symbol), name);
    return Ok(Some(OrderLists(openOrders, closedOrders)));
  }

  /** The value of the FTX-SUBACCOUNT header, set only when there are extra fields. */
  function SubaccountHeader(extraFields: seq<ExtraField>): (r: Result<Option<string>, Error>)
    ensures r == Ok(None) <==> |extraFields| == 0
    ensures r.Err? <==> |extraFields| > 0 && forall i :: 0 <= i < |extraFields| ==> extraFields[i].fieldName != "Subaccount"
    ensures r.Err? ==> r.error == UndefinedSubaccount
    ensures r.Ok? && r.value.Some? ==>
      exists k :: 0 <= k < |extraFields| && extraFields[k].fieldName == "Subaccount" && extraFields[k].value == r.value.value
        && forall j :: 0 <= j < k ==> extraFields[j].fieldName != "Subaccount"
  {
    if |extraFields| == 0 then Ok(None)
    else match Find(extraFields, (f: ExtraField) => f.fieldName == "Subaccount")
      case None => Err(UndefinedSubaccount)
      case Some(field) => Ok(Some(field.value))
  }

  /** The predicate of `openOrders: orderList.filter(...)`. */
  function OpenFor(symbol: string): (p: Order -> bool)
  {
    (o: Order) => o.status != "closed" && o.symbol == symbol
  }

  /** The predicate of `closedOrders: orderList.filter(...)`: among the symbol's orders, exactly those OpenFor rejects. */
  function ClosedFor(symbol: string): (p: Order -> bool)
    ensures forall o :: p(o) ==> o.symbol == symbol && o.status == "closed"
    ensures forall o: Order :: o.symbol == symbol ==> (p(o) <==> !OpenFor(symbol)(o))
  {
    (o: Order) => o.status == "closed" && o.symbol == symbol
  }

  /**
   * The two filters over FTX's full order list: the orders of `symbol`, split
   * by whether their status is "closed".
   */
  function FtxPartition(orders: seq<Order>, symbol: string): (r: OrderLists)
    ensures forall o :: o in r.openOrders ==> o.symbol == symbol && o.status != "closed"
    ensures forall o :: o in r.closedOrders ==> o.symbol == symbol && o.status == "closed"
    ensures forall o: Order :: o.symbol == symbol && o.status != "closed" ==> multiset(r.openOrders)[o] == multiset(orders)[o]
    ensures forall o: Order :: o.symbol == symbol && o.status == "closed" ==> multiset(r.closedOrders)[o] == multiset(orders)[o]
    ensures IsSubsequence(r.openOrders, orders) && IsSubsequence(r.closedOrders, orders)
  {
    FilterCountAll(orders, OpenFor(symbol));
    FilterCountAll(orders, ClosedFor(symbol));
    FilterIsSubsequence(orders, OpenFor(symbol));
    FilterIsSubsequence(orders, ClosedFor(symbol));
    OrderLists(Filter(orders, OpenFor(symbol)), Filter(orders, ClosedFor(symbol)))
  }

  /** Every order of the symbol is in exactly one of the two lists; the others in neither. */
  lemma FtxPartitionExact(orders: seq<Order>, symbol: string, o: Order)
    requires o in orders
    ensures var r := FtxPartition(orders, symbol);
      && (o in r.openOrders <==> o.symbol == symbol && o.status != "closed")
      && (o in r.closedOrders <==> o.symbol == symbol && o.status == "closed")
  {
  }

  /** loadFTXOrders. */
  function FtxLoad(cred: Credential, symbol: string, client: FtxClient): (r: Result<Option<OrderLists>, Error>)
    ensures r == Ok(None) <==> forall i :: 0 <= i < |client.markets| ==> client.markets[i].id != symbol
    ensures r.Err? <==>
      IsListed(client.markets, symbol) && (SubaccountHeader(cred.extraFields).Err? || !client.acceptsCredentials(cred.apiKey, cred.apiSecret))
    ensures r.Err? ==> r.error == if SubaccountHeader(cred.extraFields).Err? then UndefinedSubaccount else AuthenticationError("FTX")
    ensures r.Ok? && r.value.Some? ==>
      var part := FtxPartition(client.orders(SubaccountHeader(cred.extraFields).value), symbol);
      var lists := r.value.value;
      && |lists.openOrders| == |part.openOrders|
      && |lists.closedOrders| == |part.closedOrders|
      && (forall k :: 0 <= k < |part.openOrders| ==> lists.openOrders[k] == part.openOrders[k].(exchange := Some("FTX")))
      && (forall k :: 0 <= k < |part.closedOrders| ==> lists.closedOrders[k] == part.closedOrders[k].(exchange := Some("FTX")))
  {
    if !IsListed(client.markets, symbol) then Ok(None)
    else match SubaccountHeader(cred.extraFields)
      case Err(e) => Err(e)
      case Ok(header) =>
        if !client.acceptsCredentials(cred.apiKey, cred.apiSecret) then Err(AuthenticationError("FTX"))
        else
          var part := FtxPartition(client.orders(header), symbol);
          TaggedElements(part.openOrders, "FTX");
          TaggedElements(part.closedOrders, "FTX");
          Ok(Some(OrderLists(Tagged(part.openOrders, "FTX"), Tagged(part.closedOrders, "FTX"))))
  }

  /** Every order an FTX load returns is an FTX order of the symbol, in the list its status calls for. */
  lemma FtxLoadStatus(cred: Credential, symbol: string, client: FtxClient)
    requires FtxLoad(cred, symbol, client).Ok? && FtxLoad(cred, symbol, client).value.Some?
    ensures var lists := FtxLoad(cred, symbol, client).value.value;
      && (forall o :: o in lists.openOrders ==> o.exchange == Some("FTX") && o.symbol == symbol && o.status != "closed")
      && (forall o :: o in lists.closedOrders ==> o.exchange == Some("FTX") && o.symbol == symbol && o.status == "closed")
  {
    var lists := FtxLoad(cred, symbol, client).value.value;
    var part := FtxPartition(client.orders(SubaccountHeader(cred.extraFields).value), symbol);
    forall o | o in lists.openOrders
      ensures o.exchange == Some("FTX") && o.symbol == symbol && o.status != "closed"
    {
      var k :| 0 <= k < |lists.openOrders| && lists.openOrders[k] == o;
      assert part.openOrders[k] in part.openOrders;
    }
    forall o | o in lists.closedOrders
      ensures o.exchange == Some("FTX") && o.symbol == symbol && o.status == "closed"
    {
      var k :| 0 <= k < |lists.closedOrders| && lists.closedOrders[k] == o;
      assert part.closedOrders[k] in part.closedOrders;
    }
  }

  method LoadFtxOrders(cred: Credential, symbol: string, client: FtxClient) returns (r: Result<Option<OrderLists>, Error>)
    ensures r == FtxLoad(cred, symbol, client)
  {
    if !IsListed(client.markets, symbol) {
      return Ok(None);
    }
    var header: Option<string> := None;
    if |cred.extraFields| > 0 {
      var field := Find(cred.extraFields, (f: ExtraField) => f.fieldName == "Subaccount");
      if field.None? {
        return Err(UndefinedSubaccount);
      }
      header := Some(field.value.value);
    }
    if !client.acceptsCredentials(cred.apiKey, cred.apiSecret) {
      return Err(AuthenticationError("FTX"));
    }
    var orderList := client.orders(header);
    var part := FtxPartition(orderList, symbol);
    var openOrders := TagCopy(part.openOrders, "FTX");
    var closedOrders := TagCopy(part.closedOrders, "FTX");
    return Ok(Some(OrderLists(openOrders, closedOrders)));
  }
}
